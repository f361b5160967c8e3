/** Recovering a delivered result from channel history (bot/app/coding_delivery.py): the
    chunks of a reply are found again among the bot's own messages. */
module CodingDelivery {
  import opened Wrappers

  datatype Posted = Posted(id: nat, author: nat, content: string)

  /** How much history is fetched. */
  function Limit(chunks: seq<string>): nat {
    if 2 * |chunks| > 100 then 2 * |chunks| else 100
  }

  /** The newest messages of a channel, newest first. */
  function Scanned(newestFirst: seq<Posted>, chunks: seq<string>): seq<Posted> {
    if |newestFirst| <= Limit(chunks) then newestFirst else newestFirst[..Limit(chunks)]
  }

  /** The bot's messages, oldest first. */
  function OwnMessages(newestFirst: seq<Posted>, bot: nat): seq<Posted> {
    if newestFirst == [] then []
    else OwnMessages(newestFirst[1..], bot) + if newestFirst[0].author == bot then [newestFirst[0]] else []
  }

  /** The chunks stand in order at these positions. */
  ghost predicate StandsAt(messages: seq<Posted>, chunks: seq<string>, at: seq<nat>) {
    && |at| == |chunks|
    && (forall k :: 0 <= k < |at| ==> at[k] < |messages| && messages[at[k]].content == chunks[k])
    && forall j, k :: 0 <= j < k < |at| ==> at[j] < at[k]
  }

  /** No placement of the chunks has any of them earlier. */
  ghost predicate Leftmost(messages: seq<Posted>, chunks: seq<string>, at: seq<nat>) {
    forall other {:trigger StandsAt(messages, chunks, other)} :: StandsAt(messages, chunks, other) ==>
      |at| == |other| && forall k :: 0 <= k < |at| ==> at[k] <= other[k]
  }

  function Pick(messages: seq<Posted>, at: seq<nat>): seq<Posted>
    requires forall k :: 0 <= k < |at| ==> at[k] < |messages|
  {
    seq(|at|, k requires 0 <= k < |at| => messages[at[k]])
  }

  function Contents(messages: seq<Posted>): seq<string> {
    seq(|messages|, k requires 0 <= k < |messages| => messages[k].content)
  }

  /** What a scan that has placed the first chunks at `at` and stands at `next` says of
      another placement. */
  ghost predicate Behind(chunks: seq<string>, at: seq<nat>, next: nat, other: seq<nat>) {
    && |at| <= |chunks| == |other|
    && (forall k :: 0 <= k < |at| ==> at[k] <= other[k])
    && (|at| < |chunks| ==> next <= other[|at|])
  }

  lemma BehindStep(messages: seq<Posted>, chunks: seq<string>, at: seq<nat>, next: nat, other: seq<nat>)
    requires Behind(chunks, at, next, other) && StandsAt(messages, chunks, other)
    requires |at| < |chunks| && next < |messages|
    ensures Behind(chunks, if messages[next].content == chunks[|at|] then at + [next] else at, next + 1, other)
  {
    var e := |at|;
    if messages[next].content == chunks[e] {
      if e + 1 < |chunks| {
        assert other[e] < other[e + 1];
      }
    } else {
      assert other[e] != next;
    }
  }

  /** The inner loop: places the remaining chunks greedily after the first. */
  method MatchFrom(messages: seq<Posted>, chunks: seq<string>, start: nat)
    returns (matched: seq<Posted>, expected: nat, ghost at: seq<nat>)
    requires chunks != [] && start < |messages| && messages[start].content == chunks[0]
    ensures expected == |at| == |matched| <= |chunks|
    ensures StandsAt(messages, chunks[..expected], at) && matched == Pick(messages, at)
    ensures Contents(matched) == chunks[..expected]
    ensures forall other {:trigger StandsAt(messages, chunks, other)} ::
      StandsAt(messages, chunks, other) && start <= other[0] ==>
      && expected == |chunks|
      && forall k :: 0 <= k < |at| ==> at[k] <= other[k]
  {
    matched, expected, at := [messages[start]], 1, [start];
    var next: nat := start + 1;
    forall other | StandsAt(messages, chunks, other) && start <= other[0]
      ensures Behind(chunks, at, next, other)
    {
      if 1 < |chunks| {
        assert other[0] < other[1];
      }
    }
    while next < |messages| && expected < |chunks|
      invariant start < next <= |messages|
      invariant expected == |at| == |matched| <= |chunks| && expected > 0
      invariant StandsAt(messages, chunks[..expected], at) && matched == Pick(messages, at)
      invariant forall k :: 0 <= k < |at| ==> at[k] < next
      invariant forall other {:trigger StandsAt(messages, chunks, other)} ::
        StandsAt(messages, chunks, other) && start <= other[0] ==> Behind(chunks, at, next, other)
    {
      forall other | StandsAt(messages, chunks, other) && start <= other[0]
        ensures Behind(chunks, if messages[next].content == chunks[|at|] then at + [next] else at, next + 1, other)
      {
        BehindStep(messages, chunks, at, next, other);
      }
      if messages[next].content == chunks[expected] {
        matched := matched + [messages[next]];
        expected := expected + 1;
        at := at + [next];
      }
      next := next + 1;
    }
  }

  /** `find_result_delivery` once the history is there; `newestFirst` is none when the
      fetch failed. It finds the leftmost delivery whenever there is one. */
  method FindResultDelivery(bot: Option<nat>, newestFirst: Option<seq<Posted>>, chunks: seq<string>)
    returns (matched: seq<Posted>, ghost at: seq<nat>)
    ensures bot.None? || newestFirst.None? || chunks == [] ==> matched == []
    ensures bot.Some? && newestFirst.Some? && chunks != [] ==>
      var own := OwnMessages(Scanned(newestFirst.value, chunks), bot.value);
      && (matched != [] ==> StandsAt(own, chunks, at) && Leftmost(own, chunks, at) && matched == Pick(own, at))
      && (matched != [] ==> Contents(matched) == chunks)
      && (matched == [] ==> forall other :: !StandsAt(own, chunks, other))
      && (matched != [] <==> Found(newestFirst.value, bot.value, chunks))
  {
    at := [];
    if bot.None? || chunks == [] {
      return [], [];
    }
    if newestFirst.None? {
      return [], [];
    }
    var own := OwnMessages(Scanned(newestFirst.value, chunks), bot.value);
    for start := 0 to |own|
      invariant forall other {:trigger StandsAt(own, chunks, other)} :: StandsAt(own, chunks, other) ==> start <= other[0]
    {
      if own[start].content != chunks[0] {
        continue;
      }
      var expected;
      matched, expected, at := MatchFrom(own, chunks, start);
      if expected == |chunks| {
        assert chunks[..expected] == chunks;
        return;
      }
    }
    matched := [];
  }

  /** A part of a delivery is never taken for the whole: with one chunk missing from the
      bot's scanned messages nothing is found. */
  lemma PartIsNotFound(own: seq<Posted>, chunks: seq<string>, missing: nat)
    requires missing < |chunks| && forall m :: m in own ==> m.content != chunks[missing]
    ensures forall at :: !StandsAt(own, chunks, at)
  {
    forall at ensures !StandsAt(own, chunks, at) {
      if |at| == |chunks| && at[missing] < |own| {
        assert own[at[missing]] in own;
      }
    }
  }

  // ----- how far back a delivery may lie

  /** The chunks were posted by the bot at these ages in a channel: 0 is the newest of all
      its messages, whoever wrote them. */
  ghost predicate PostedAt(newestFirst: seq<Posted>, bot: nat, chunks: seq<string>, ages: seq<nat>) {
    && |ages| == |chunks|
    && (forall k :: 0 <= k < |ages| ==> IsOwn(newestFirst, bot, ages[k]) && newestFirst[ages[k]].content == chunks[k])
    && forall j, k :: 0 <= j < k < |ages| ==> ages[j] > ages[k]
  }

  predicate IsOwn(newestFirst: seq<Posted>, bot: nat, age: nat) {
    age < |newestFirst| && newestFirst[age].author == bot
  }

  /** A delivery is found: `FindResultDelivery` returns something exactly then. */
  ghost predicate Found(newestFirst: seq<Posted>, bot: nat, chunks: seq<string>) {
    exists at {:trigger StandsAt(OwnMessages(Scanned(newestFirst, chunks), bot), chunks, at)} ::
      StandsAt(OwnMessages(Scanned(newestFirst, chunks), bot), chunks, at)
  }

  /** The age of the bot's `i`-th message. */
  function AgeOf(newestFirst: seq<Posted>, bot: nat, i: nat): (age: nat)
    requires i < |OwnMessages(newestFirst, bot)|
    ensures IsOwn(newestFirst, bot, age) && newestFirst[age] == OwnMessages(newestFirst, bot)[i]
  {
    if i == |OwnMessages(newestFirst[1..], bot)| then 0 else 1 + AgeOf(newestFirst[1..], bot, i)
  }

  lemma {:induction false} AgesFall(newestFirst: seq<Posted>, bot: nat, i: nat, j: nat)
    requires i < j < |OwnMessages(newestFirst, bot)|
    ensures AgeOf(newestFirst, bot, i) > AgeOf(newestFirst, bot, j)
  {
    if j < |OwnMessages(newestFirst[1..], bot)| {
      AgesFall(newestFirst[1..], bot, i, j);
    }
  }

  /** The position of a message of this age among the bot's. */
  function PlaceOf(newestFirst: seq<Posted>, bot: nat, age: nat): (i: nat)
    requires IsOwn(newestFirst, bot, age)
    ensures i < |OwnMessages(newestFirst, bot)| && OwnMessages(newestFirst, bot)[i] == newestFirst[age]
  {
    if age == 0 then |OwnMessages(newestFirst[1..], bot)| else PlaceOf(newestFirst[1..], bot, age - 1)
  }

  lemma {:induction false} PlacesFall(newestFirst: seq<Posted>, bot: nat, a: nat, b: nat)
    requires a < b && IsOwn(newestFirst, bot, a) && IsOwn(newestFirst, bot, b)
    ensures PlaceOf(newestFirst, bot, a) > PlaceOf(newestFirst, bot, b)
  {
    if a > 0 {
      PlacesFall(newestFirst[1..], bot, a - 1, b - 1);
    }
  }

  lemma PlacementIsPosting(newestFirst: seq<Posted>, bot: nat, chunks: seq<string>, at: seq<nat>) returns (ages: seq<nat>)
    requires StandsAt(OwnMessages(newestFirst, bot), chunks, at)
    ensures PostedAt(newestFirst, bot, chunks, ages)
  {
    ages := seq(|at|, k requires 0 <= k < |at| => AgeOf(newestFirst, bot, at[k]));
    forall j, k | 0 <= j < k < |ages| ensures ages[j] > ages[k] {
      AgesFall(newestFirst, bot, at[j], at[k]);
    }
  }

  lemma PostingIsPlacement(newestFirst: seq<Posted>, bot: nat, chunks: seq<string>, ages: seq<nat>) returns (at: seq<nat>)
    requires PostedAt(newestFirst, bot, chunks, ages)
    ensures StandsAt(OwnMessages(newestFirst, bot), chunks, at)
  {
    at := seq(|ages|, k requires 0 <= k < |ages| => PlaceOf(newestFirst, bot, ages[k]));
    forall j, k | 0 <= j < k < |at| ensures at[j] < at[k] {
      PlacesFall(newestFirst, bot, ages[k], ages[j]);
    }
  }

  /** A delivery is found exactly when some placement of it has its oldest message within
      the limit, counted over the messages of everybody. */
  lemma FoundIffWithinLimit(newestFirst: seq<Posted>, bot: nat, chunks: seq<string>)
    requires chunks != []
    ensures Found(newestFirst, bot, chunks) <==>
      exists ages :: PostedAt(newestFirst, bot, chunks, ages) && ages[0] < Limit(chunks)
  {
    var scanned := Scanned(newestFirst, chunks);
    if Found(newestFirst, bot, chunks) {
      var at :| StandsAt(OwnMessages(scanned, bot), chunks, at);
      var ages := PlacementIsPosting(scanned, bot, chunks, at);
      assert IsOwn(scanned, bot, ages[0]);
      forall k | 0 <= k < |ages| ensures IsOwn(newestFirst, bot, ages[k]) && newestFirst[ages[k]].content == chunks[k] {
        assert IsOwn(scanned, bot, ages[k]);
      }
      assert PostedAt(newestFirst, bot, chunks, ages);
    }
    if ages :| PostedAt(newestFirst, bot, chunks, ages) && ages[0] < Limit(chunks) {
      forall k | 0 <= k < |ages| ensures IsOwn(scanned, bot, ages[k]) && scanned[ages[k]].content == chunks[k] {
        assert IsOwn(newestFirst, bot, ages[k]) && ages[k] <= ages[0];
      }
      var at := PostingIsPlacement(scanned, bot, chunks, ages);
    }
  }

  function Older(ages: seq<nat>, more: nat): seq<nat> {
    seq(|ages|, k requires 0 <= k < |ages| => ages[k] + more)
  }

  lemma PostedEarlier(more: seq<Posted>, newestFirst: seq<Posted>, bot: nat, chunks: seq<string>, ages: seq<nat>)
    requires PostedAt(newestFirst, bot, chunks, ages)
    ensures PostedAt(more + newestFirst, bot, chunks, Older(ages, |more|))
  {
    forall k | 0 <= k < |ages|
      ensures IsOwn(more + newestFirst, bot, ages[k] + |more|)
      ensures (more + newestFirst)[ages[k] + |more|].content == chunks[k]
    {
      assert IsOwn(newestFirst, bot, ages[k]);
    }
  }

  /** What is posted afterwards, by anybody, counts against the limit: a delivery that is
      the only one in the channel is still found if and only if its oldest message and all
      that was posted since fit it. */
  lemma StillFoundIff(more: seq<Posted>, newestFirst: seq<Posted>, bot: nat, chunks: seq<string>, ages: seq<nat>)
    requires chunks != [] && PostedAt(newestFirst, bot, chunks, ages)
    requires forall other :: PostedAt(more + newestFirst, bot, chunks, other) ==> other == Older(ages, |more|)
    ensures Found(more + newestFirst, bot, chunks) <==> |more| + ages[0] < Limit(chunks)
  {
    PostedEarlier(more, newestFirst, bot, chunks, ages);
    FoundIffWithinLimit(more + newestFirst, bot, chunks);
  }

  function Filler(n: nat, author: nat): seq<Posted> {
    seq(n, _ => Posted(0, author, ""))
  }

  /** One message of somebody else hides a delivery: of a single chunk, a hundred messages
      with the delivery the oldest are enough. */
  lemma LaterMessageHides(bot: nat, other: nat, chunk: string)
    requires bot != other
    ensures var history := Filler(99, other) + [Posted(1, bot, chunk)];
      Found(history, bot, [chunk]) && !Found([Posted(2, other, "")] + history, bot, [chunk])
  {
    var history := Filler(99, other) + [Posted(1, bot, chunk)];
    var more := [Posted(2, other, "")];
    assert IsOwn(history, bot, 99);
    assert PostedAt(history, bot, [chunk], [99]);
    FoundIffWithinLimit(history, bot, [chunk]);
    forall ages | PostedAt(more + history, bot, [chunk], ages) ensures ages == Older([99], 1) {
      assert IsOwn(more + history, bot, ages[0]);
    }
    StillFoundIff(more, history, bot, [chunk], [99]);
  }
}
