/** What a collected response says about itself, read off the events alone: the laws that
    `MergeUsage` of backend/ir/response.go and `Add` of backend/ir/aggregate.go are there for.

    Nothing here looks at how the aggregator merges.  Each dimension of the response is compared
    with the list of the values the events gave for it. */
module Reported {
  import opened Ir
  import opened Seqs
  import opened Aggregate

  /** The events handed to the aggregator, looks in between aside. */
  function Fed(ops: seq<Op>): seq<Event> {
    if ops == [] then []
    else
      var front, op := Fed(ops[..|ops| - 1]), ops[|ops| - 1];
      if op.Feed? then front + [op.ev] else front
  }

  function Last<T>(said: seq<T>, otherwise: T): T {
    if said == [] then otherwise else said[|said| - 1]
  }

  lemma LastAppend<T>(said: seq<T>, more: seq<T>, otherwise: T)
    ensures Last(said + more, otherwise) == if more == [] then Last(said, otherwise) else more[|more| - 1]
  {
    ConcatNothing(said);
  }

  // ----- the dimensions -----

  datatype Number =
    | Input | Output | Reasoning | WebSearches | WebFetches | PromptAudio | CompletionAudio
    | AcceptedPrediction | RejectedPrediction | PromptImage | PromptText | CompletionText

  function Amount(u: Usage, d: Number): int {
    match d
    case Input => u.input
    case Output => u.output
    case Reasoning => u.reasoning
    case WebSearches => u.webSearches
    case WebFetches => u.webFetches
    case PromptAudio => u.promptAudio
    case CompletionAudio => u.completionAudio
    case AcceptedPrediction => u.acceptedPrediction
    case RejectedPrediction => u.rejectedPrediction
    case PromptImage => u.promptImage
    case PromptText => u.promptText
    case CompletionText => u.completionText
  }

  datatype Words =
    | InferenceGeo | Iterations | ServiceTier | Fingerprint | PromptCache | Moderation
    | Diagnostics | StopSequence

  function ReceiptWords(r: Receipts, d: Words): string {
    match d
    case ServiceTier => r.serviceTier
    case Fingerprint => r.systemFingerprint
    case PromptCache => r.promptCacheDiagnostics
    case Moderation => r.moderation
    case _ => ""
  }

  function UsageWords(u: Usage, d: Words): string {
    match d
    case InferenceGeo => u.inferenceGeo
    case Iterations => u.iterations
    case _ => ""
  }

  function ResponseWords(r: Response, d: Words): string {
    match d
    case Diagnostics => r.diagnostics
    case StopSequence => r.stopSequence
    case InferenceGeo => r.usage.inferenceGeo
    case Iterations => r.usage.iterations
    case _ => ReceiptWords(r.receipts, d)
  }

  predicate Tells(ev: Event) { ev.MessageStart? || ev.MessageDelta? }

  /** The words an event gives for a dimension; the empty string when it gives none. */
  function EventWords(ev: Event, d: Words): string {
    if d.InferenceGeo? || d.Iterations? then
      if Tells(ev) && ev.usage.Some? then UsageWords(ev.usage.value, d) else ""
    else if d.Diagnostics? then if ev.MessageStart? then ev.diagnostics else ""
    else if d.StopSequence? then if ev.MessageDelta? then ev.stopSequence else ""
    else if Tells(ev) then ReceiptWords(ev.receipts, d) else ""
  }

  // ----- the values said, in order -----

  function UsagesSaid(evs: seq<Event>): seq<Usage> {
    if evs == [] then []
    else
      var front, ev := UsagesSaid(evs[..|evs| - 1]), evs[|evs| - 1];
      if Tells(ev) && ev.usage.Some? then front + [ev.usage.value] else front
  }

  function PositiveAmounts(us: seq<Usage>, d: Number): seq<int> {
    if us == [] then []
    else
      var front, n := PositiveAmounts(us[..|us| - 1], d), Amount(us[|us| - 1], d);
      if n > 0 then front + [n] else front
  }

  function KnownSplits(us: seq<Usage>): seq<(int, int)> {
    if us == [] then []
    else
      var front, u := KnownSplits(us[..|us| - 1]), us[|us| - 1];
      if u.detailsKnown then front + [(u.cacheWrite5m, u.cacheWrite1h)] else front
  }

  function WordsSaid(evs: seq<Event>, d: Words): seq<string> {
    if evs == [] then []
    else
      var front, words := WordsSaid(evs[..|evs| - 1], d), EventWords(evs[|evs| - 1], d);
      if words != "" then front + [words] else front
  }

  function StopsSaid(evs: seq<Event>): seq<StopReason> {
    if evs == [] then []
    else
      var front, ev := StopsSaid(evs[..|evs| - 1]), evs[|evs| - 1];
      if ev.MessageDelta? && ev.stopReason != StopUnset then front + [ev.stopReason] else front
  }

  function StartsSaid(evs: seq<Event>): seq<(string, string)> {
    if evs == [] then []
    else
      var front, ev := StartsSaid(evs[..|evs| - 1]), evs[|evs| - 1];
      if ev.MessageStart? then front + [(ev.messageId, ev.model)] else front
  }

  function TimesSaid(evs: seq<Event>, completed: bool): seq<int> {
    if evs == [] then []
    else
      var front, ev := TimesSaid(evs[..|evs| - 1], completed), evs[|evs| - 1];
      var time := if completed && Tells(ev) then ev.receipts.completedAt
                  else if !completed && ev.MessageStart? then ev.created else 0;
      if time != 0 then front + [time] else front
  }

  datatype Extra = Details | Container | Audio

  /** The optional parts an event carries. */
  function EventExtra(ev: Event, d: Extra): Option<string> {
    match d
    case Details => if ev.MessageDelta? then ev.stopDetails else None
    case Container => if Tells(ev) then ev.receipts.container else None
    case Audio => if ev.MessageStart? then ev.audio else None
  }

  function ResponseExtra(r: Response, d: Extra): Option<string> {
    match d
    case Details => r.stopDetails
    case Container => r.receipts.container
    case Audio => r.audio
  }

  function ExtrasSaid(evs: seq<Event>, d: Extra): seq<Option<string>> {
    if evs == [] then []
    else
      var front, x := ExtrasSaid(evs[..|evs| - 1], d), EventExtra(evs[|evs| - 1], d);
      if x.Some? then front + [x] else front
  }

  function MetadataSaid(evs: seq<Event>): seq<map<string, string>> {
    if evs == [] then []
    else
      var front, ev := MetadataSaid(evs[..|evs| - 1]), evs[|evs| - 1];
      if Tells(ev) && ev.receipts.metadata != map[] then front + [ev.receipts.metadata] else front
  }

  // ----- usage -----

  /** `r` is the largest of `amounts`, or nothing if they stay below one. */
  predicate IsLargest(us: seq<Usage>, r: int, written: bool) {
    && r >= 0 && (forall i :: 0 <= i < |us| ==> (if written then us[i].cacheWrite else us[i].cacheRead) <= r)
    && (r > 0 ==> exists i :: 0 <= i < |us| && (if written then us[i].cacheWrite else us[i].cacheRead) == r)
  }

  /** What the reports of a stream add up to. */
  ghost predicate SumsUp(us: seq<Usage>, u: Usage) {
    && (forall d :: Amount(u, d) == Last(PositiveAmounts(us, d), 0))
    && IsLargest(us, u.cacheRead, false) && IsLargest(us, u.cacheWrite, true)
    && (u.detailsKnown <==> KnownSplits(us) != [])
    && (u.cacheWrite5m, u.cacheWrite1h) == Last(KnownSplits(us), (0, 0))
  }

  lemma LargestMore(us: seq<Usage>, u: Usage, r: int, written: bool)
    requires IsLargest(us, r, written)
    ensures var n := if written then u.cacheWrite else u.cacheRead;
      IsLargest(us + [u], if n > r then n else r, written)
  {
    var n := if written then u.cacheWrite else u.cacheRead;
    var more := us + [u];
    if n > r {
      assert (if written then more[|us|].cacheWrite else more[|us|].cacheRead) == n;
    } else if r > 0 {
      var i :| 0 <= i < |us| && (if written then us[i].cacheWrite else us[i].cacheRead) == r;
      assert (if written then more[i].cacheWrite else more[i].cacheRead) == r;
    }
  }

  lemma SumsUpMore(us: seq<Usage>, was: Usage, u: Usage)
    requires SumsUp(us, was)
    ensures SumsUp(us + [u], MergeUsage(was, u))
  {
    assert (us + [u])[..|us|] == us;
    LargestMore(us, u, was.cacheRead, false);
    LargestMore(us, u, was.cacheWrite, true);
    forall d | true
      ensures Amount(MergeUsage(was, u), d) == Last(PositiveAmounts(us + [u], d), 0)
    {
      assert Amount(was, d) == Last(PositiveAmounts(us, d), 0);
      AmountMerged(was, u, d);
    }
  }

  lemma AmountMerged(was: Usage, u: Usage, d: Number)
    ensures Amount(MergeUsage(was, u), d) == if Amount(u, d) > 0 then Amount(u, d) else Amount(was, d)
  {}

  // ----- everything the response says about itself -----

  ghost predicate SaysUsage(evs: seq<Event>, r: Response) { SumsUp(UsagesSaid(evs), r.usage) }

  ghost predicate SaysWords(evs: seq<Event>, r: Response) {
    forall d :: ResponseWords(r, d) == Last(WordsSaid(evs, d), "")
  }

  ghost predicate SaysExtras(evs: seq<Event>, r: Response) {
    forall d :: ResponseExtra(r, d) == Last(ExtrasSaid(evs, d), None)
  }

  predicate SaysTimes(evs: seq<Event>, r: Response) {
    && r.created == Last(TimesSaid(evs, false), 0) && r.receipts.completedAt == Last(TimesSaid(evs, true), 0)
    && r.receipts.metadata == Last(MetadataSaid(evs), map[])
    && (r.id, r.model) == Last(StartsSaid(evs), ("", ""))
  }

  lemma UsageFollows(evs: seq<Event>, ev: Event, r: Response)
    requires SaysUsage(evs, r)
    ensures SaysUsage(evs + [ev], Meta(r, ev))
  {
    assert (evs + [ev])[..|evs|] == evs;
    if Tells(ev) && ev.usage.Some? { SumsUpMore(UsagesSaid(evs), r.usage, ev.usage.value); }
  }

  lemma WordsFollow(evs: seq<Event>, ev: Event, r: Response)
    requires SaysWords(evs, r)
    ensures SaysWords(evs + [ev], Meta(r, ev))
  {
    assert (evs + [ev])[..|evs|] == evs;
    forall d | true ensures ResponseWords(Meta(r, ev), d) == Last(WordsSaid(evs + [ev], d), "") {
      assert ResponseWords(r, d) == Last(WordsSaid(evs, d), "");
      WordsMerged(r, ev, d);
    }
  }

  lemma WordsMerged(r: Response, ev: Event, d: Words)
    ensures ResponseWords(Meta(r, ev), d) == if EventWords(ev, d) != "" then EventWords(ev, d) else ResponseWords(r, d)
  {}

  lemma ExtrasFollow(evs: seq<Event>, ev: Event, r: Response)
    requires SaysExtras(evs, r)
    ensures SaysExtras(evs + [ev], Meta(r, ev))
  {
    assert (evs + [ev])[..|evs|] == evs;
    forall d | true ensures ResponseExtra(Meta(r, ev), d) == Last(ExtrasSaid(evs + [ev], d), None) {
      assert ResponseExtra(r, d) == Last(ExtrasSaid(evs, d), None);
    }
  }

  lemma TimesFollow(evs: seq<Event>, ev: Event, r: Response)
    requires SaysTimes(evs, r)
    ensures SaysTimes(evs + [ev], Meta(r, ev))
  {
    assert (evs + [ev])[..|evs|] == evs;
  }

  ghost predicate Says(evs: seq<Event>, r: Response) {
    && SaysUsage(evs, r) && SaysWords(evs, r) && SaysExtras(evs, r) && SaysTimes(evs, r)
    && r.stopReason == Last(StopsSaid(evs), StopUnset)
  }

  lemma SaysMore(evs: seq<Event>, ev: Event, r: Response)
    requires Says(evs, r)
    ensures Says(evs + [ev], Meta(r, ev))
  {
    UsageFollows(evs, ev, r);
    WordsFollow(evs, ev, r);
    ExtrasFollow(evs, ev, r);
    TimesFollow(evs, ev, r);
    assert (evs + [ev])[..|evs|] == evs;
  }

  lemma NoNumbers(d: Number)
    ensures Amount(ZERO_USAGE, d) == 0
  {}

  lemma NoUsageSaid()
    ensures SumsUp([], ZERO_USAGE)
  {
    forall d | true ensures Amount(ZERO_USAGE, d) == Last(PositiveAmounts([], d), 0) { NoNumbers(d); }
  }

  lemma NoWords(d: Words)
    ensures ResponseWords(EMPTY_RESPONSE, d) == ""
  {}

  lemma NoWordsSaid()
    ensures SaysWords([], EMPTY_RESPONSE)
  {
    forall d | true ensures ResponseWords(EMPTY_RESPONSE, d) == Last(WordsSaid([], d), "") { NoWords(d); }
  }

  lemma NoExtrasSaid()
    ensures SaysExtras([], EMPTY_RESPONSE)
  {
    forall d | true ensures ResponseExtra(EMPTY_RESPONSE, d) == Last(ExtrasSaid([], d), None) {}
  }

  lemma NothingSaid(evs: seq<Event>, r: Response)
    requires evs == [] && r == EMPTY_RESPONSE
    ensures Says(evs, r)
  {
    NoUsageSaid();
    NoWordsSaid();
    NoExtrasSaid();
    assert SaysTimes(evs, r);
  }

  lemma OnlyMetaSays(a: Agg, ev: Event)
    ensures Add(a, ev).resp == Meta(a.resp, ev)
  {}

  lemma {:induction false} RunSays(ops: seq<Op>, proj: Projection)
    ensures Says(Fed(ops), Run(ops, proj).resp)
  {
    if ops == [] {
      NothingSaid(Fed(ops), Run(ops, proj).resp);
    } else {
      var front, op := ops[..|ops| - 1], ops[|ops| - 1];
      RunSays(front, proj);
      if op.Feed? {
        OnlyMetaSays(Run(front, proj), op.ev);
        SaysMore(Fed(front), op.ev, Run(front, proj).resp);
      }
    }
  }

  /** After any run whatever, with any event twice or out of place, each number of the response
      is the last positive one reported, cache counts are the largest reported, the split by time
      to live is that of the last report that knew it, and each text, optional part and time is
      the last one given.  The stop reason is the last one given, unless calls were made. */
  lemma ResponseSaysWhatWasReported(ops: seq<Op>, proj: Projection)
    ensures var evs, r := Fed(ops), ResponseOf(Run(ops, proj), proj);
      && SaysUsage(evs, r) && SaysWords(evs, r) && SaysExtras(evs, r) && SaysTimes(evs, r)
      && r.stopReason == (if (exists k :: 0 <= k < |r.content| && r.content[k].kind == BlockToolUse)
                             && Last(StopsSaid(evs), StopUnset) != StopContentFilter
                          then StopToolUse else Last(StopsSaid(evs), StopUnset))
  {
    RunSays(ops, proj);
    OnlyContentAdded(Fed(ops), Run(ops, proj).resp, Collect(Materialize(Run(ops, proj), proj).blocks, Run(ops, proj).order));
  }

  lemma OnlyContentAdded(evs: seq<Event>, r: Response, content: seq<Block>)
    requires Says(evs, r)
    ensures var c := Concluded(r, content);
      && SaysUsage(evs, c) && SaysWords(evs, c) && SaysExtras(evs, c) && SaysTimes(evs, c)
  {
    var c := Concluded(r, content);
    forall d | true ensures ResponseWords(c, d) == Last(WordsSaid(evs, d), "") {
      assert ResponseWords(r, d) == Last(WordsSaid(evs, d), "");
    }
    forall d | true ensures ResponseExtra(c, d) == Last(ExtrasSaid(evs, d), None) {
      assert ResponseExtra(r, d) == Last(ExtrasSaid(evs, d), None);
    }
  }
}
