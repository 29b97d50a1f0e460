/** What a run of the mission orchestrator guarantees, for every query and
    every behaviour of the external service: how it ends, the order of its
    phases, how the log grows, which listings the outreach phase changes,
    and what is kept when a call fails. The lemmas follow the phases of a
    run: the outreach loop, the hunting phase, the whole run. */
module RunProperties {
  import opened Types
  import opened Text
  import opened MissionHelpers
  import opened Orchestrator

  function Last<T>(s: seq<T>): T
    requires s != []
  {
    s[|s| - 1]
  }

  /** The three active phases in their order. */
  const PHASES: seq<AgentStatus> := [Strategizing, Hunting, Closing]

  /** Entry i of the log carries the clock reading taken for position i. */
  predicate Stamped(logs: seq<AgentLog>, svc: Service) {
    forall i :: 0 <= i < |logs| ==> logs[i].timestamp == svc.clock(i)
  }

  /** Appending a log entry keeps every entry stamped with the clock
      reading for its position. */
  lemma SayStamped(b: Board, n: Note, kind: LogType, svc: Service, text: Note -> string)
    requires Stamped(b.logs, svc)
    ensures Stamped(Say(b, n, kind, svc, text).logs, svc)
  {
  }

  // ---------------------------------------------------------------------
  // Which calls succeed
  // ---------------------------------------------------------------------

  /** Every inquiry of `batch` from the k-th on is answered. */
  predicate Answered(batch: seq<Listing>, k: nat, svc: Service)
    requires k <= |batch|
  {
    forall j :: k <= j < |batch| ==> svc.simulateOutreach(j, batch[j]).Ok?
  }

  /** Discovery answers and so does every inquiry of the outreach phase. */
  predicate HuntSucceeds(q: SearchQuery, svc: Service) {
    svc.findListings(q).Ok? && Answered(Batch(svc.findListings(q).value.listings), 0, svc)
  }

  /** No external call of the run fails. */
  predicate Succeeds(q: SearchQuery, coords: Option<Coords>, svc: Service) {
    svc.analyzeCommute(q, coords).Ok? && HuntSucceeds(q, svc)
  }

  /** The error message of the first failed inquiry from the k-th on. */
  function OutreachFailure(batch: seq<Listing>, k: nat, svc: Service): string
    requires k <= |batch| && !Answered(batch, k, svc)
    decreases |batch| - k
  {
    match svc.simulateOutreach(k, batch[k])
    case Err(e) => e
    case Ok(_) => OutreachFailure(batch, k + 1, svc)
  }

  /** The error message of the first failed call of the hunting phase. */
  function HuntFailure(q: SearchQuery, svc: Service): string
    requires !HuntSucceeds(q, svc)
  {
    match svc.findListings(q)
    case Err(e) => e
    case Ok(found) => OutreachFailure(Batch(found.listings), 0, svc)
  }

  /** The error message of the first failed call of the run. */
  function FailureMessage(q: SearchQuery, coords: Option<Coords>, svc: Service): string
    requires !Succeeds(q, coords, svc)
  {
    match svc.analyzeCommute(q, coords)
    case Err(e) => e
    case Ok(_) => HuntFailure(q, svc)
  }

  /** The index of the first inquiry from the k-th on that fails, or the
      size of the batch when every one is answered. */
  function FirstUnanswered(batch: seq<Listing>, k: nat, svc: Service): (m: nat)
    requires k <= |batch|
    decreases |batch| - k
    ensures k <= m <= |batch|
    ensures forall j :: k <= j < m ==> svc.simulateOutreach(j, batch[j]).Ok?
    ensures m < |batch| ==> svc.simulateOutreach(m, batch[m]).Err?
  {
    if k == |batch| then k
    else if svc.simulateOutreach(k, batch[k]).Err? then k
    else FirstUnanswered(batch, k + 1, svc)
  }

  // ---------------------------------------------------------------------
  // The outreach loop
  // ---------------------------------------------------------------------

  /** From its k-th iteration on, the outreach loop sets exactly one more
      status: COMPLETED when every remaining inquiry is answered, IDLE
      otherwise. */
  lemma {:induction false} OutreachStatus(b: Board, batch: seq<Listing>, k: nat, svc: Service, text: Note -> string)
    requires k <= |batch|
    decreases |batch| - k
    ensures var r := Outreach(b, batch, k, svc, text);
      && r.status == (if Answered(batch, k, svc) then Completed else Idle)
      && r.trail == b.trail + [r.status]
  {
    if k < |batch| {
      var b1 := Say(b, Transmitting(batch[k].source), Info, svc, text);
      match svc.simulateOutreach(k, batch[k])
      case Err(e) =>
      case Ok(reply) =>
        OutreachStatus(Record(b1, batch[k], IsAvailable(reply), svc, text), batch, k + 1, svc, text);
        assert Answered(batch, k, svc) <==> Answered(batch, k + 1, svc);
    }
  }

  /** When every inquiry from the k-th on is answered, the last log line
      of the loop announces the verified schedule. */
  lemma {:induction false} OutreachCompletionLog(b: Board, batch: seq<Listing>, k: nat, svc: Service, text: Note -> string)
    requires k <= |batch| && Answered(batch, k, svc)
    decreases |batch| - k
    ensures var r := Outreach(b, batch, k, svc, text);
      r.logs != [] && Last(r.logs).message == text(LifecycleCompleted) && Last(r.logs).kind == Success
  {
    if k < |batch| {
      var available := IsAvailable(svc.simulateOutreach(k, batch[k]).value);
      OutreachCompletionLog(Record(Say(b, Transmitting(batch[k].source), Info, svc, text), batch[k], available, svc, text), batch, k + 1, svc, text);
    }
  }

  /** When some inquiry from the k-th on fails, the last log line of the
      loop is the warning with the message of the first failed inquiry. */
  lemma {:induction false} OutreachErrorLog(b: Board, batch: seq<Listing>, k: nat, svc: Service, text: Note -> string)
    requires k <= |batch| && !Answered(batch, k, svc)
    decreases |batch| - k
    ensures var r := Outreach(b, batch, k, svc, text);
      r.logs != [] && Last(r.logs).message == text(MissionError(OutreachFailure(batch, k, svc))) && Last(r.logs).kind == Warning
  {
    var b1 := Say(b, Transmitting(batch[k].source), Info, svc, text);
    match svc.simulateOutreach(k, batch[k])
    case Err(e) =>
    case Ok(reply) =>
      OutreachErrorLog(Record(b1, batch[k], IsAvailable(reply), svc, text), batch, k + 1, svc, text);
  }

  /** The outreach loop only appends to the log, stamping each new entry
      with the clock reading for its position. */
  lemma {:induction false} OutreachAppends(b: Board, batch: seq<Listing>, k: nat, svc: Service, text: Note -> string)
    requires k <= |batch|
    decreases |batch| - k
    ensures var r := Outreach(b, batch, k, svc, text);
      && |r.logs| > |b.logs| && r.logs[..|b.logs|] == b.logs
      && (Stamped(b.logs, svc) ==> Stamped(r.logs, svc))
  {
    var stamped := Stamped(b.logs, svc);
    if k == |batch| {
      if stamped { SayStamped(Enter(b, Completed), LifecycleCompleted, Success, svc, text); }
    } else {
      var b1 := Say(b, Transmitting(batch[k].source), Info, svc, text);
      if stamped { SayStamped(b, Transmitting(batch[k].source), Info, svc, text); }
      match svc.simulateOutreach(k, batch[k])
      case Err(e) =>
        if stamped { SayStamped(b1, MissionError(e), Warning, svc, text); }
      case Ok(reply) =>
        var available := IsAvailable(reply);
        var b2 := b1.(results := UpdateById(b1.results, batch[k].id, available));
        if stamped { SayStamped(b2, VerdictNote(batch[k], available), VerdictKind(available), svc, text); }
        var b3 := Record(b1, batch[k], available, svc, text);
        assert b3.logs[..|b.logs|] == b.logs;
        OutreachAppends(b3, batch, k + 1, svc, text);
        var r := Outreach(b3, batch, k + 1, svc, text);
        assert r.logs[..|b.logs|] == r.logs[..|b3.logs|][..|b.logs|];
    }
  }

  /** `rs` is `base` entry by entry with at most the outreach tag and the
      agent note changed: every display field is kept. */
  predicate Restyled(rs: seq<Listing>, base: seq<Listing>) {
    && |rs| == |base|
    && forall i :: 0 <= i < |rs| ==> rs[i] == base[i].(status := rs[i].status, agentNote := rs[i].agentNote)
  }

  /** Recording a reply changes no display field. */
  lemma UpdateRestyles(results: seq<Listing>, id: string, available: bool)
    ensures Restyled(UpdateById(results, id, available), results)
  {
  }

  lemma RestyledTrans(a: seq<Listing>, b: seq<Listing>, c: seq<Listing>)
    requires Restyled(a, b) && Restyled(b, c)
    ensures Restyled(a, c)
  {
  }

  /** The outreach loop keeps the strategy, the sources, the number and
      ids of the results and every display field of the results. */
  lemma {:induction false} OutreachKeeps(b: Board, batch: seq<Listing>, k: nat, svc: Service, text: Note -> string)
    requires k <= |batch|
    decreases |batch| - k
    ensures var r := Outreach(b, batch, k, svc, text);
      && r.strategyText == b.strategyText && r.sources == b.sources
      && Ids(r.results) == Ids(b.results)
      && Restyled(r.results, b.results)
  {
    if k < |batch| {
      var b1 := Say(b, Transmitting(batch[k].source), Info, svc, text);
      match svc.simulateOutreach(k, batch[k])
      case Err(e) =>
      case Ok(reply) =>
        var b2 := Record(b1, batch[k], IsAvailable(reply), svc, text);
        UpdateKeepsIds(b1.results, batch[k].id, IsAvailable(reply));
        UpdateRestyles(b1.results, batch[k].id, IsAvailable(reply));
        OutreachKeeps(b2, batch, k + 1, svc, text);
        RestyledTrans(Outreach(b2, batch, k + 1, svc, text).results, b2.results, b.results);
    } else {
      assert Outreach(b, batch, k, svc, text).results == b.results;
    }
  }

  /** Whether the reply to the k-th inquiry, about `l`, reports the unit
      available (a failed inquiry reports nothing). */
  function Verdict(svc: Service, k: nat, l: Listing): bool {
    match svc.simulateOutreach(k, l)
    case Ok(reply) => IsAvailable(reply)
    case Err(_) => false
  }

  /** The two lines one answered iteration appends to `logs`: the inquiry
      about `batch[k]` and the verdict of its reply, each stamped for its
      position. */
  function Advance(logs: seq<AgentLog>, batch: seq<Listing>, k: nat, svc: Service, text: Note -> string): (next: seq<AgentLog>)
    requires k < |batch|
    ensures |next| == |logs| + 2 && next[..|logs|] == logs
    ensures next[|logs|].message == text(Transmitting(batch[k].source)) && next[|logs|].kind == Info
    ensures next[|logs| + 1].message == text(VerdictNote(batch[k], Verdict(svc, k, batch[k])))
    ensures next[|logs| + 1].kind == VerdictKind(Verdict(svc, k, batch[k]))
  {
    var available := Verdict(svc, k, batch[k]);
    var asked := logs + [AgentLog(svc.clock(|logs|), text(Transmitting(batch[k].source)), Info)];
    asked + [AgentLog(svc.clock(|asked|), text(VerdictNote(batch[k], available)), VerdictKind(available))]
  }

  /** The log the outreach loop leaves, from its k-th iteration on, when
      every inquiry is answered and it starts from `logs`: per listing, the
      inquiry and the verdict of its reply, then the completion line, each
      stamped for its position. */
  function Transcript(logs: seq<AgentLog>, batch: seq<Listing>, k: nat, svc: Service, text: Note -> string): seq<AgentLog>
    requires k <= |batch|
    decreases |batch| - k
  {
    if k == |batch| then
      logs + [AgentLog(svc.clock(|logs|), text(LifecycleCompleted), Success)]
    else
      Transcript(Advance(logs, batch, k, svc, text), batch, k + 1, svc, text)
  }

  /** When every inquiry from the k-th on is answered, the loop leaves
      exactly the transcript in the log. */
  lemma {:induction false} OutreachWrites(b: Board, batch: seq<Listing>, k: nat, svc: Service, text: Note -> string)
    requires k <= |batch| && Answered(batch, k, svc)
    decreases |batch| - k
    ensures Outreach(b, batch, k, svc, text).logs == Transcript(b.logs, batch, k, svc, text)
  {
    if k < |batch| {
      var available := IsAvailable(svc.simulateOutreach(k, batch[k]).value);
      OutreachWrites(Record(Say(b, Transmitting(batch[k].source), Info, svc, text), batch[k], available, svc, text), batch, k + 1, svc, text);
    }
  }

  /** The transcript keeps the log it starts from and adds two lines per
      remaining listing and one more. */
  lemma {:induction false} TranscriptExtends(logs: seq<AgentLog>, batch: seq<Listing>, k: nat, svc: Service, text: Note -> string)
    requires k <= |batch|
    decreases |batch| - k
    ensures var t := Transcript(logs, batch, k, svc, text);
      |t| == |logs| + 2 * (|batch| - k) + 1 && t[..|logs|] == logs
  {
    if k < |batch| {
      var next := Advance(logs, batch, k, svc, text);
      TranscriptExtends(next, batch, k + 1, svc, text);
      var t := Transcript(next, batch, k + 1, svc, text);
      assert t[..|logs|] == t[..|next|][..|logs|];
    }
  }

  /** The first two lines the transcript adds are the inquiry about the
      k-th listing and the verdict of its reply. */
  lemma TranscriptFirst(logs: seq<AgentLog>, batch: seq<Listing>, k: nat, svc: Service, text: Note -> string)
    requires k < |batch|
    ensures var t := Transcript(logs, batch, k, svc, text);
      var available := Verdict(svc, k, batch[k]);
      && |logs| + 1 < |t|
      && t[|logs|].message == text(Transmitting(batch[k].source)) && t[|logs|].kind == Info
      && t[|logs| + 1].message == text(VerdictNote(batch[k], available)) && t[|logs| + 1].kind == VerdictKind(available)
  {
    var next := Advance(logs, batch, k, svc, text);
    TranscriptExtends(next, batch, k + 1, svc, text);
    var t := Transcript(next, batch, k + 1, svc, text);
    assert t[|logs|] == t[..|next|][|logs|] == next[|logs|];
    assert t[|logs| + 1] == t[..|next|][|logs| + 1] == next[|logs| + 1];
  }

  /** In the transcript, line i = |logs| + 2 (j - k) and the one after it
      are the inquiry about the j-th listing and the verdict of its reply. */
  lemma {:induction false} TranscriptAt(logs: seq<AgentLog>, batch: seq<Listing>, k: nat, j: nat, i: nat, svc: Service, text: Note -> string)
    requires k <= j < |batch| && i == |logs| + 2 * (j - k)
    decreases j - k
    ensures var t := Transcript(logs, batch, k, svc, text);
      var available := Verdict(svc, j, batch[j]);
      && i + 1 < |t|
      && t[i].message == text(Transmitting(batch[j].source)) && t[i].kind == Info
      && t[i + 1].message == text(VerdictNote(batch[j], available)) && t[i + 1].kind == VerdictKind(available)
  {
    if j == k {
      TranscriptFirst(logs, batch, k, svc, text);
      assert i == |logs|;
    } else {
      TranscriptAt(Advance(logs, batch, k, svc, text), batch, k + 1, j, i, svc, text);
    }
  }

  /** Ids are unique across a list of listings. */
  predicate DistinctIds(listings: seq<Listing>) {
    forall i, j :: 0 <= i < j < |listings| ==> listings[i].id != listings[j].id
  }

  /** `results` is `listings` with the replies to the first `m` inquiries
      recorded, and nothing else changed. */
  predicate MarkedUpTo(results: seq<Listing>, listings: seq<Listing>, m: nat, svc: Service) {
    && |results| == |listings|
    && forall i :: 0 <= i < |results| ==>
         results[i] == if i < m then Mark(listings[i], Verdict(svc, i, listings[i])) else listings[i]
  }

  /** With unique ids, recording the verdict on the k-th listing marks it
      and no other. */
  lemma MarkStep(results: seq<Listing>, listings: seq<Listing>, k: nat, available: bool, svc: Service)
    requires DistinctIds(listings) && k < |listings| && MarkedUpTo(results, listings, k, svc)
    requires available == Verdict(svc, k, listings[k])
    ensures MarkedUpTo(UpdateById(results, listings[k].id, available), listings, k + 1, svc)
  {
    var r := UpdateById(results, listings[k].id, available);
    forall i | 0 <= i < |listings|
      ensures r[i] == if i < k + 1 then Mark(listings[i], Verdict(svc, i, listings[i])) else listings[i]
    {
      assert results[i].id == listings[i].id;
      if i != k {
        assert listings[i].id != listings[k].id;
      }
    }
  }

  /** With unique ids, each listing the outreach loop got an answer about
      carries the verdict of its own reply, and every other listing keeps
      what discovery returned: on success that is each of the first three,
      and after a failed inquiry the verdicts recorded before it stay. */
  lemma {:induction false} OutreachMarks(b: Board, listings: seq<Listing>, k: nat, svc: Service, text: Note -> string)
    requires DistinctIds(listings)
    requires k <= |Batch(listings)| && MarkedUpTo(b.results, listings, k, svc)
    decreases |Batch(listings)| - k
    ensures MarkedUpTo(Outreach(b, Batch(listings), k, svc, text).results, listings,
                       FirstUnanswered(Batch(listings), k, svc), svc)
  {
    var batch := Batch(listings);
    if k < |batch| {
      var listing := batch[k];
      assert listing == listings[k];
      match svc.simulateOutreach(k, listing)
      case Err(e) =>
        assert Outreach(b, batch, k, svc, text).results == b.results;
      case Ok(reply) =>
        var available := IsAvailable(reply);
        MarkStep(b.results, listings, k, available, svc);
        OutreachMarks(Record(Say(b, Transmitting(listing.source), Info, svc, text), listing, available, svc, text),
                      listings, k + 1, svc, text);
    }
  }

  // ---------------------------------------------------------------------
  // The hunting phase
  // ---------------------------------------------------------------------

  /** The hunting phase sets HUNTING, then either falls back to IDLE when
      discovery fails, or sets CLOSING and ends as the outreach loop does. */
  lemma HuntStatus(b: Board, q: SearchQuery, svc: Service, text: Note -> string)
    ensures var r := Hunt(b, q, svc, text);
      && r.status == (if HuntSucceeds(q, svc) then Completed else Idle)
      && r.trail == b.trail + [Hunting] + (if svc.findListings(q).Err? then [Idle] else [Closing, r.status])
  {
    match svc.findListings(q)
    case Err(e) =>
    case Ok(found) =>
      var b2 := Discovered(StartHunt(b, svc, text), found, svc, text);
      assert b2.trail == b.trail + [Hunting, Closing];
      OutreachStatus(b2, Batch(found.listings), 0, svc, text);
  }

  /** The last log line of the hunting phase announces the verified
      schedule when it succeeds, and is otherwise the warning with the
      message of its first failed call. */
  lemma HuntLastLog(b: Board, q: SearchQuery, svc: Service, text: Note -> string)
    ensures var r := Hunt(b, q, svc, text);
      && r.logs != []
      && (HuntSucceeds(q, svc) ==>
            Last(r.logs).message == text(LifecycleCompleted) && Last(r.logs).kind == Success)
      && (!HuntSucceeds(q, svc) ==>
            Last(r.logs).message == text(MissionError(HuntFailure(q, svc))) && Last(r.logs).kind == Warning)
  {
    match svc.findListings(q)
    case Err(e) =>
    case Ok(found) =>
      var b2 := Discovered(StartHunt(b, svc, text), found, svc, text);
      if Answered(Batch(found.listings), 0, svc) {
        OutreachCompletionLog(b2, Batch(found.listings), 0, svc, text);
      } else {
        OutreachErrorLog(b2, Batch(found.listings), 0, svc, text);
      }
  }

  /** The hunting phase appends at least three stamped lines to the log
      and changes none of the earlier ones. */
  lemma HuntAppends(b: Board, q: SearchQuery, svc: Service, text: Note -> string)
    ensures var r := Hunt(b, q, svc, text);
      && |r.logs| >= |b.logs| + 3 && r.logs[..|b.logs|] == b.logs
      && (Stamped(b.logs, svc) ==> Stamped(r.logs, svc))
  {
    var stamped := Stamped(b.logs, svc);
    var h := Enter(b, Hunting);
    var h1 := Say(h, Scanning, Agent, svc, text);
    var b1 := StartHunt(b, svc, text);
    if stamped {
      SayStamped(h, Scanning, Agent, svc, text);
      SayStamped(h1, Synthesizing, Info, svc, text);
    }
    assert b1.logs[..|b.logs|] == b.logs;
    match svc.findListings(q)
    case Err(e) =>
      if stamped { SayStamped(b1, MissionError(e), Warning, svc, text); }
      assert Hunt(b, q, svc, text).logs[..|b.logs|] == b1.logs[..|b.logs|];
    case Ok(found) =>
      var c := b1.(sources := found.sources, results := found.listings);
      var m := if |found.listings| == 0 then ZeroMatches else Extracted(|found.listings|);
      var kind := if |found.listings| == 0 then Warning else Success;
      var c1 := Say(c, m, kind, svc, text);
      var b2 := Discovered(b1, found, svc, text);
      assert b2 == Say(Enter(c1, Closing), OutreachStarts, Agent, svc, text);
      if stamped {
        SayStamped(c, m, kind, svc, text);
        SayStamped(Enter(c1, Closing), OutreachStarts, Agent, svc, text);
      }
      assert b2.logs[..|b.logs|] == b.logs;
      OutreachAppends(b2, Batch(found.listings), 0, svc, text);
      var r := Outreach(b2, Batch(found.listings), 0, svc, text);
      assert r.logs[..|b.logs|] == r.logs[..|b2.logs|][..|b.logs|];
  }

  /** The hunting phase keeps the strategy; a failed discovery keeps the
      results and sources it started with, a successful one stores the
      sources and the listings (positions, ids and display fields
      unchanged). */
  lemma HuntKeeps(b: Board, q: SearchQuery, svc: Service, text: Note -> string)
    ensures var r := Hunt(b, q, svc, text);
      && r.strategyText == b.strategyText
      && (svc.findListings(q).Err? ==> r.results == b.results && r.sources == b.sources)
      && (svc.findListings(q).Ok? ==>
            && r.sources == svc.findListings(q).value.sources
            && Ids(r.results) == Ids(svc.findListings(q).value.listings)
            && Restyled(r.results, svc.findListings(q).value.listings))
  {
    match svc.findListings(q)
    case Err(e) =>
    case Ok(found) =>
      OutreachKeeps(Discovered(StartHunt(b, svc, text), found, svc, text), Batch(found.listings), 0, svc, text);
  }

  /** When discovery answers, the hunting phase is the outreach loop over
      the first three listings, started four log lines later. */
  lemma HuntReachesOutreach(b: Board, q: SearchQuery, svc: Service, text: Note -> string)
    requires svc.findListings(q).Ok?
    ensures var c := Discovered(StartHunt(b, svc, text), svc.findListings(q).value, svc, text);
      && |c.logs| == |b.logs| + 4
      && Hunt(b, q, svc, text) == Outreach(c, Batch(svc.findListings(q).value.listings), 0, svc, text)
  {
  }

  /** When the hunting phase succeeds it logs five fixed lines plus two
      per contacted listing; entry 4 + 2j after its start announces the
      inquiry about listing j. */
  lemma HuntTranscript(b: Board, q: SearchQuery, svc: Service, text: Note -> string)
    requires HuntSucceeds(q, svc)
    ensures var r := Hunt(b, q, svc, text);
      var batch := Batch(svc.findListings(q).value.listings);
      && |r.logs| == |b.logs| + 5 + 2 * |batch|
      && forall j :: 0 <= j < |batch| ==> r.logs[|b.logs| + 4 + 2 * j].message == text(Transmitting(batch[j].source))
  {
    var found := svc.findListings(q).value;
    var batch := Batch(found.listings);
    var c := Discovered(StartHunt(b, svc, text), found, svc, text);
    HuntReachesOutreach(b, q, svc, text);
    OutreachWrites(c, batch, 0, svc, text);
    var t := Transcript(c.logs, batch, 0, svc, text);
    TranscriptExtends(c.logs, batch, 0, svc, text);
    forall j | 0 <= j < |batch|
      ensures t[|b.logs| + 4 + 2 * j].message == text(Transmitting(batch[j].source))
    {
      TranscriptAt(c.logs, batch, 0, j, |b.logs| + 4 + 2 * j, svc, text);
    }
  }

  // ---------------------------------------------------------------------
  // A whole run
  // ---------------------------------------------------------------------

  /** A run reaches COMPLETED exactly when no external call fails, and then
      its last log line announces the verified schedule; otherwise it falls
      back to IDLE and its last log line is the warning with the message of
      the first failure. */
  lemma RunOutcome(q: SearchQuery, coords: Option<Coords>, svc: Service, text: Note -> string)
    ensures var r := Run(q, coords, svc, text);
      && r.logs != []
      && (r.status == Completed <==> Succeeds(q, coords, svc))
      && (Succeeds(q, coords, svc) ==>
            Last(r.logs).message == text(LifecycleCompleted) && Last(r.logs).kind == Success)
      && (!Succeeds(q, coords, svc) ==>
            && r.status == Idle
            && Last(r.logs).message == text(MissionError(FailureMessage(q, coords, svc))) && Last(r.logs).kind == Warning)
  {
    match svc.analyzeCommute(q, coords)
    case Err(e) =>
    case Ok(strategy) =>
      var b := Strategized(Opening(q, svc, text), strategy, svc, text);
      HuntStatus(b, q, svc, text);
      HuntLastLog(b, q, svc, text);
  }

  /** The statuses a run sets, in order: STRATEGIZING, then HUNTING once
      the analysis answers, then CLOSING once discovery answers, and last
      the status it ends in. */
  lemma RunTrail(q: SearchQuery, coords: Option<Coords>, svc: Service, text: Note -> string)
    ensures var r := Run(q, coords, svc, text);
      r.trail == if svc.analyzeCommute(q, coords).Err? then [Strategizing, Idle]
                 else if svc.findListings(q).Err? then [Strategizing, Hunting, Idle]
                 else [Strategizing, Hunting, Closing, r.status]
    ensures var r := Run(q, coords, svc, text);
      r.status == (if Succeeds(q, coords, svc) then Completed else Idle)
  {
    match svc.analyzeCommute(q, coords)
    case Err(e) =>
    case Ok(strategy) =>
      var b := Strategized(Opening(q, svc, text), strategy, svc, text);
      assert b.trail == [Strategizing];
      HuntStatus(b, q, svc, text);
  }

  /** The statuses set, in order, only move forward: STRATEGIZING, then
      HUNTING, then CLOSING, stopping early only to fall back to IDLE;
      COMPLETED comes only after all three phases; the last one set is the
      current status. */
  predicate MovesForward(trail: seq<AgentStatus>, status: AgentStatus) {
    && 2 <= |trail| <= 4
    && trail[..|trail| - 1] == PHASES[..|trail| - 1]
    && trail[|trail| - 1] == status
    && (status == Completed || status == Idle)
    && (status == Completed ==> |trail| == 4)
  }

  /** The three trails a run can leave move forward. */
  lemma ForwardTrails(s: AgentStatus)
    requires s == Completed || s == Idle
    ensures MovesForward([Strategizing, Idle], Idle)
    ensures MovesForward([Strategizing, Hunting, Idle], Idle)
    ensures MovesForward([Strategizing, Hunting, Closing, s], s)
  {
    assert [Strategizing, Idle][..1] == PHASES[..1];
    assert [Strategizing, Hunting, Idle][..2] == PHASES[..2];
    assert [Strategizing, Hunting, Closing, s][..3] == PHASES;
  }

  /** Every run moves forward, and one in which no call fails sets all
      four statuses. */
  lemma RunMovesForward(q: SearchQuery, coords: Option<Coords>, svc: Service, text: Note -> string)
    ensures var r := Run(q, coords, svc, text);
      MovesForward(r.trail, r.status)
    ensures Succeeds(q, coords, svc) ==>
              Run(q, coords, svc, text).trail == [Strategizing, Hunting, Closing, Completed]
  {
    RunTrail(q, coords, svc, text);
    ForwardTrails(Run(q, coords, svc, text).status);
  }

  /** The opening lines are stamped and the first names the work location. */
  lemma OpeningStamped(q: SearchQuery, svc: Service, text: Note -> string)
    ensures |Opening(q, svc, text).logs| == 3 && Stamped(Opening(q, svc, text).logs, svc)
    ensures Opening(q, svc, text).logs[0] == AgentLog(svc.clock(0), text(Initiated(q.workLocation)), Agent)
  {
    var b := Board(Strategizing, [], [], "", [], [Strategizing]);
    SayStamped(b, Initiated(q.workLocation), Agent, svc, text);
    var b1 := Say(b, Initiated(q.workLocation), Agent, svc, text);
    SayStamped(b1, TargetCurrency(q.currency), Info, svc, text);
    SayStamped(Say(b1, TargetCurrency(q.currency), Info, svc, text), CommuteZones, Info, svc, text);
  }

  /** A run starts from an empty log: its first three entries are the
      opening lines (the first names the work location), every entry is
      stamped with the clock reading for its position, and the run only
      ever appends after them. */
  lemma RunLogs(q: SearchQuery, coords: Option<Coords>, svc: Service, text: Note -> string)
    ensures var r := Run(q, coords, svc, text);
      && |r.logs| >= 4
      && r.logs[..3] == Opening(q, svc, text).logs
      && r.logs[0] == AgentLog(svc.clock(0), text(Initiated(q.workLocation)), Agent)
      && Stamped(r.logs, svc)
  {
    var b := Opening(q, svc, text);
    OpeningStamped(q, svc, text);
    match svc.analyzeCommute(q, coords)
    case Err(e) =>
      SayStamped(b, MissionError(e), Warning, svc, text);
      assert Run(q, coords, svc, text).logs[..3] == b.logs;
    case Ok(strategy) =>
      var h := Strategized(b, strategy, svc, text);
      SayStamped(b.(strategyText := strategy), ClustersVerified, Success, svc, text);
      assert h.logs[..3] == b.logs;
      HuntAppends(h, q, svc, text);
      var r := Hunt(h, q, svc, text);
      assert r.logs[..3] == r.logs[..|h.logs|][..3];
  }

  /** A failure keeps what was fetched before it: the strategy text once
      the analysis answered, the sources and the listings (positions, ids
      and display fields unchanged) once discovery answered; a failed
      analysis leaves the strategy, the results and the sources empty.
      The verdicts kept after a failed inquiry are in RunMarksFirstThree. */
  lemma RunKeepsFetched(q: SearchQuery, coords: Option<Coords>, svc: Service, text: Note -> string)
    ensures var r := Run(q, coords, svc, text);
      match svc.analyzeCommute(q, coords)
      case Err(_) => r.strategyText == "" && r.results == [] && r.sources == []
      case Ok(strategy) =>
        && r.strategyText == strategy
        && (svc.findListings(q).Err? ==> r.results == [] && r.sources == [])
        && (svc.findListings(q).Ok? ==>
              && r.sources == svc.findListings(q).value.sources
              && Ids(r.results) == Ids(svc.findListings(q).value.listings)
              && Restyled(r.results, svc.findListings(q).value.listings))
  {
    match svc.analyzeCommute(q, coords)
    case Err(e) =>
    case Ok(strategy) =>
      HuntKeeps(Strategized(Opening(q, svc, text), strategy, svc, text), q, svc, text);
  }

  /** The state in which the outreach loop of a run starts, when the
      analysis and discovery both answer. */
  function ClosingState(q: SearchQuery, coords: Option<Coords>, svc: Service, text: Note -> string): Board
    requires svc.analyzeCommute(q, coords).Ok? && svc.findListings(q).Ok?
  {
    var strategy := svc.analyzeCommute(q, coords).value;
    Discovered(StartHunt(Strategized(Opening(q, svc, text), strategy, svc, text), svc, text), svc.findListings(q).value, svc, text)
  }

  /** When the analysis and discovery both answer, the outreach loop
      starts after eight log lines, with the listings found as the results,
      and the run is that loop over the first three. */
  lemma RunReachesClosing(q: SearchQuery, coords: Option<Coords>, svc: Service, text: Note -> string)
    requires svc.analyzeCommute(q, coords).Ok? && svc.findListings(q).Ok?
    ensures var c := ClosingState(q, coords, svc, text);
      && |c.logs| == 8
      && c.results == svc.findListings(q).value.listings
      && c.trail == PHASES
      && Run(q, coords, svc, text) == Outreach(c, Batch(svc.findListings(q).value.listings), 0, svc, text)
  {
  }

  /** With unique ids, the run changes only the first min(3, n) listings of
      the n found and keeps their number and order. Each listing contacted
      before the first failed inquiry (each of the first min(3, n) when the
      run succeeds) carries the verdict of its own reply: `replied` with the
      confirmation note or `rejected` with the update note; a failure rolls
      none of them back. */
  lemma RunMarksFirstThree(q: SearchQuery, coords: Option<Coords>, svc: Service, text: Note -> string)
    requires svc.analyzeCommute(q, coords).Ok? && svc.findListings(q).Ok?
    requires DistinctIds(svc.findListings(q).value.listings)
    ensures var r := Run(q, coords, svc, text);
      var listings := svc.findListings(q).value.listings;
      var m := FirstUnanswered(Batch(listings), 0, svc);
      && |r.results| == |listings|
      && (forall i :: OUTREACH_LIMIT <= i < |listings| ==> r.results[i] == listings[i])
      && (forall i :: 0 <= i < m ==> r.results[i] == Mark(listings[i], Verdict(svc, i, listings[i])))
      && (forall i :: m <= i < |listings| ==> r.results[i] == listings[i])
      && (Succeeds(q, coords, svc) <==> m == |Batch(listings)|)
  {
    var listings := svc.findListings(q).value.listings;
    var c := ClosingState(q, coords, svc, text);
    RunReachesClosing(q, coords, svc, text);
    OutreachMarks(c, listings, 0, svc, text);
  }

  /** A successful run logs nine fixed lines plus two per contacted
      listing, and contacts the first min(3, n) listings in list order:
      entry 8 + 2j announces the inquiry about listing j. */
  lemma RunTranscript(q: SearchQuery, coords: Option<Coords>, svc: Service, text: Note -> string)
    requires Succeeds(q, coords, svc)
    ensures var r := Run(q, coords, svc, text);
      var batch := Batch(svc.findListings(q).value.listings);
      && |r.logs| == 9 + 2 * |batch|
      && forall j :: 0 <= j < |batch| ==> r.logs[8 + 2 * j].message == text(Transmitting(batch[j].source))
  {
    var h := Strategized(Opening(q, svc, text), svc.analyzeCommute(q, coords).value, svc, text);
    assert |h.logs| == 4;
    HuntTranscript(h, q, svc, text);
  }

  /** Finding no listings is not a failure: the run logs the zero-matches
      warning (entry 6), contacts nobody and still completes, in nine
      lines. */
  lemma RunWithNoListings(q: SearchQuery, coords: Option<Coords>, svc: Service, text: Note -> string)
    requires svc.analyzeCommute(q, coords).Ok?
    requires svc.findListings(q).Ok? && svc.findListings(q).value.listings == []
    ensures var r := Run(q, coords, svc, text);
      && r.status == Completed
      && r.trail == [Strategizing, Hunting, Closing, Completed]
      && r.results == []
      && |r.logs| == 9
      && r.logs[6] == AgentLog(svc.clock(6), text(ZeroMatches), Warning)
  {
    var c := ClosingState(q, coords, svc, text);
    RunReachesClosing(q, coords, svc, text);
    assert Batch([]) == [];
  }

  /** The schedule of five results whose statuses are replied, rejected,
      replied, new, new holds the first and the third. */
  lemma ScheduleOfScenario(rs: seq<Listing>)
    requires |rs| == 5
    requires rs[0].status == Replied && rs[1].status == Rejected && rs[2].status == Replied
    requires rs[3].status == New && rs[4].status == New
    ensures Schedule(rs) == [rs[0], rs[2]]
  {
    assert Schedule(rs[4..]) == [] by { assert rs[4..][1..] == []; }
    assert rs[3..][1..] == rs[4..];
    assert rs[2..][1..] == rs[3..];
    assert Schedule(rs[2..]) == [rs[2]];
    assert rs[1..][1..] == rs[2..];
  }

  /** The end-to-end scenario: discovery returns five fresh listings with
      distinct ids and the replies to the three inquiries are "AVAILABLE",
      "SOLD OUT", "AVAILABLE"; the run completes with the first three
      replied, rejected, replied, the last two still new, and the schedule
      holding exactly the first and the third. */
  lemma FiveListingScenario(q: SearchQuery, coords: Option<Coords>, svc: Service, text: Note -> string, yes: string, no: string)
    requires yes == "AVAILABLE" && no == "SOLD OUT"
    requires svc.analyzeCommute(q, coords).Ok? && svc.findListings(q).Ok?
    requires var ls := svc.findListings(q).value.listings;
      |ls| == 5 && DistinctIds(ls) && forall i :: 0 <= i < 5 ==> ls[i].status == New
    requires var ls := svc.findListings(q).value.listings;
      && svc.simulateOutreach(0, ls[0]) == Ok(yes)
      && svc.simulateOutreach(1, ls[1]) == Ok(no)
      && svc.simulateOutreach(2, ls[2]) == Ok(yes)
    ensures var r := Run(q, coords, svc, text);
      var ls := svc.findListings(q).value.listings;
      && r.status == Completed
      && |r.results| == 5
      && r.results[0].status == Replied && r.results[1].status == Rejected && r.results[2].status == Replied
      && r.results[3] == ls[3] && r.results[4] == ls[4]
      && Schedule(r.results) == [r.results[0], r.results[2]]
  {
    var ls := svc.findListings(q).value.listings;
    BareAvailable(yes);
    BareSoldOut(no);
    assert Batch(ls) == ls[..3];
    assert Answered(Batch(ls), 0, svc);
    assert Succeeds(q, coords, svc);
    RunOutcome(q, coords, svc, text);
    RunMarksFirstThree(q, coords, svc, text);
    ScheduleOfScenario(Run(q, coords, svc, text).results);
  }
}
