/** The mission orchestrator of App.tsx: the view state of the screen, the
    run it performs when the start button is pressed, and a specification of
    that run as a function of the query and of the answers of the external
    AI service.

    The external service is not modelled; a `Service` value stands for the
    answers it gives in one run. Each of its fields is total: every
    possible behaviour of the service (including failing at any call) is
    some `Service`.

    Log lines are written as `Note`s and worded by a parameter
    `text: Note -> string`, so that what is proved about a run holds for
    any wording; `Wording` holds the texts App.tsx writes, and the start
    button runs with it. */
module Orchestrator {
  import opened Types
  import opened MissionHelpers

  /** The optional position reported by the browser's geolocation. */
  datatype Coords = Coords(latitude: real, longitude: real)

  /** A citation returned with the listings; shown for transparency only. */
  datatype Citation = Citation(uri: Option<string>, title: Option<string>)

  /** The answer of the listing-discovery call. */
  datatype Found = Found(listings: seq<Listing>, sources: seq<Citation>)

  /** The answers of the external service during one run, each a value or a
      thrown error:
      - `analyzeCommute(query, coords)`: the commute strategy text;
      - `findListings(query)`: the listings and their citations;
      - `simulateOutreach(k, listing)`: the reply to the k-th inquiry of the
        run (numbered from 0), sent about `listing`;
      - `clock(k)`: the formatted wall-clock reading taken when the run
        appends its k-th log entry (numbered from 0). */
  datatype Service = Service(
    analyzeCommute: (SearchQuery, Option<Coords>) -> Result<string>,
    findListings: SearchQuery -> Result<Found>,
    simulateOutreach: (nat, Listing) -> Result<string>,
    clock: nat -> string)

  /** How many listings the outreach phase contacts at most. */
  const OUTREACH_LIMIT: nat := 3

  // ---------------------------------------------------------------------
  // Log messages
  // ---------------------------------------------------------------------

  /** The log lines a run writes, by template and the values filled in. */
  datatype Note =
    | Initiated(workLocation: string)
    | TargetCurrency(currency: string)
    | CommuteZones
    | ClustersVerified
    | Scanning
    | Synthesizing
    | Extracted(count: nat)
    | ZeroMatches
    | OutreachStarts
    | Transmitting(source: string)
    | Locked(title: string)
    | SoldOut(title: string)
    | MissionError(message: string)
    | LifecycleCompleted

  /** The number a string of decimal digits denotes. */
  function DecimalValue(s: string): nat
    requires forall i :: 0 <= i < |s| ==> '0' <= s[i] <= '9'
  {
    if s == [] then 0 else DecimalValue(s[..|s| - 1]) * 10 + (s[|s| - 1] as int - '0' as int)
  }

  /** The decimal digits of `n`, as a template literal prints a length:
      digits only, no leading zero, and denoting `n`. */
  function DecimalString(n: nat): (r: string)
    decreases n
    ensures r != [] && (forall i :: 0 <= i < |r| ==> '0' <= r[i] <= '9')
    ensures r[0] == '0' ==> n == 0
    ensures DecimalValue(r) == n
  {
    if n < 10 then ["0123456789"[n]] else DecimalString(n / 10) + ["0123456789"[n % 10]]
  }

  /** The text App.tsx writes for each log line. The run below is stated
      for any wording `text: Note -> string`; the screen uses this one. */
  function Wording(n: Note): string {
    match n
    case Initiated(workLocation) => "LUDIFY Lifecycle Management Initiated for: " + workLocation
    case TargetCurrency(currency) => "Target Currency: " + currency
    case CommuteZones => "PHASE 1: Strategist Agent calculating real-time Commute Zones..."
    case ClustersVerified => "Neighborhood clusters and landmark nodes verified."
    case Scanning => "PHASE 2: Hunter Agent (Architect Mode) scanning disparate platforms..."
    case Synthesizing => "Synthesizing extraction scripts to pull deterministic data..."
    case Extracted(count) => "Successfully extracted " + DecimalString(count) + " REAL listings from the live web."
    case ZeroMatches => "Zero direct matches. Expanding search radius by 5%..."
    case OutreachStarts => "PHASE 3: Closer Agent (Outreach Bot) initiating automated sequence..."
    case Transmitting(source) => "Transmitting LUDIFY proxy inquiry to " + source + "..."
    case Locked(title) => "Inquiry Success: Viewing window locked for " + title + "."
    case SoldOut(title) => "Listing \"" + title + "\" marked as SOLD OUT."
    case MissionError(message) => "Critical Mission Error: " + message
    case LifecycleCompleted => "Lifecycle Completed: Your Verified Schedule is ready."
  }

  /** The line reporting the reply about `l`. */
  function VerdictNote(l: Listing, available: bool): Note {
    if available then Locked(l.title) else SoldOut(l.title)
  }

  function VerdictKind(available: bool): LogType {
    if available then Success else Warning
  }

  // ---------------------------------------------------------------------
  // The specification of a run
  // ---------------------------------------------------------------------

  /** What the screen shows: the fields a run writes, and `trail`, the
      statuses set since the current run began, in order. */
  datatype Board = Board(
    status: AgentStatus,
    logs: seq<AgentLog>,
    results: seq<Listing>,
    strategyText: string,
    sources: seq<Citation>,
    trail: seq<AgentStatus>)

  /** `addLog(message, kind)`: append one entry, worded by `text` and
      stamped with the clock reading for its position. */
  function Say(b: Board, n: Note, kind: LogType, svc: Service, text: Note -> string): Board {
    b.(logs := b.logs + [AgentLog(svc.clock(|b.logs|), text(n), kind)])
  }

  /** `setStatus(s)`. */
  function Enter(b: Board, s: AgentStatus): Board {
    b.(status := s, trail := b.trail + [s])
  }

  /** The catch block: log the error as a warning, then fall back to IDLE;
      whatever was fetched so far stays. */
  function Abort(b: Board, message: string, svc: Service, text: Note -> string): Board {
    Enter(Say(b, MissionError(message), Warning, svc, text), Idle)
  }

  /** The state right after the reset and the three opening log lines. */
  function Opening(q: SearchQuery, svc: Service, text: Note -> string): Board {
    var b := Board(Strategizing, [], [], "", [], [Strategizing]);
    Say(Say(Say(b, Initiated(q.workLocation), Agent, svc, text), TargetCurrency(q.currency), Info, svc, text),
        CommuteZones, Info, svc, text)
  }

  /** `listings.slice(0, 3)`. */
  function Batch(listings: seq<Listing>): (batch: seq<Listing>)
    ensures |batch| == if |listings| < OUTREACH_LIMIT then |listings| else OUTREACH_LIMIT
    ensures batch == listings[..|batch|]
  {
    if |listings| < OUTREACH_LIMIT then listings else listings[..OUTREACH_LIMIT]
  }

  /** The strategy text stored and its success line logged. */
  function Strategized(b: Board, strategy: string, svc: Service, text: Note -> string): Board {
    Say(b.(strategyText := strategy), ClustersVerified, Success, svc, text)
  }

  /** HUNTING set and its two log lines written. */
  function StartHunt(b: Board, svc: Service, text: Note -> string): Board {
    Say(Say(Enter(b, Hunting), Scanning, Agent, svc, text), Synthesizing, Info, svc, text)
  }

  /** The discovery answer stored, its count (or the zero-matches warning)
      logged, then CLOSING set and its line written. */
  function Discovered(b: Board, found: Found, svc: Service, text: Note -> string): Board {
    var b1 := b.(sources := found.sources, results := found.listings);
    var b2 := if |found.listings| == 0 then Say(b1, ZeroMatches, Warning, svc, text)
              else Say(b1, Extracted(|found.listings|), Success, svc, text);
    Say(Enter(b2, Closing), OutreachStarts, Agent, svc, text)
  }

  /** One reply recorded: every result with the listing's id updated, then
      the verdict logged. */
  function Record(b: Board, listing: Listing, available: bool, svc: Service, text: Note -> string): Board {
    Say(b.(results := UpdateById(b.results, listing.id, available)),
        VerdictNote(listing, available), VerdictKind(available), svc, text)
  }

  /** The outreach loop from its k-th iteration on, followed by the
      completion of the run; an inquiry that fails aborts the run. */
  function Outreach(b: Board, batch: seq<Listing>, k: nat, svc: Service, text: Note -> string): Board
    requires k <= |batch|
    decreases |batch| - k
  {
    if k == |batch| then
      Say(Enter(b, Completed), LifecycleCompleted, Success, svc, text)
    else
      var b1 := Say(b, Transmitting(batch[k].source), Info, svc, text);
      match svc.simulateOutreach(k, batch[k])
      case Err(e) => Abort(b1, e, svc, text)
      case Ok(reply) => Outreach(Record(b1, batch[k], IsAvailable(reply), svc, text), batch, k + 1, svc, text)
  }

  /** The hunting phase once the strategy is known: discovery, then the
      outreach phase. */
  function Hunt(b: Board, q: SearchQuery, svc: Service, text: Note -> string): Board {
    var b1 := StartHunt(b, svc, text);
    match svc.findListings(q)
    case Err(e) => Abort(b1, e, svc, text)
    case Ok(found) => Outreach(Discovered(b1, found, svc, text), Batch(found.listings), 0, svc, text)
  }

  /** A whole run for a query with both inputs filled in; it depends on
      nothing the screen showed before. */
  function Run(q: SearchQuery, coords: Option<Coords>, svc: Service, text: Note -> string): Board {
    var b := Opening(q, svc, text);
    match svc.analyzeCommute(q, coords)
    case Err(e) => Abort(b, e, svc, text)
    case Ok(strategy) => Hunt(Strategized(b, strategy, svc, text), q, svc, text)
  }

  // ---------------------------------------------------------------------
  // The screen
  // ---------------------------------------------------------------------

  /** The component's state; React state setters become field updates that
      take effect in program order. */
  class MissionControl {
    var status: AgentStatus
    var query: SearchQuery
    var coords: Option<Coords>
    var logs: seq<AgentLog>
    var results: seq<Listing>
    var strategyText: string
    var sources: seq<Citation>
    /** The statuses set since the current run began. */
    ghost var trail: seq<AgentStatus>

    /** The fields a run writes, as a value. */
    ghost function Snapshot(): Board
      reads this
    {
      Board(status, logs, results, strategyText, sources, trail)
    }

    /** The initial state: IDLE, an empty query in US dollars by car with a
        25-minute limit, no position, nothing logged or found. */
    constructor ()
      ensures status == Idle && coords == None
      ensures query == SearchQuery("", "", "USD", Driving, 25)
      ensures logs == [] && results == [] && strategyText == "" && sources == [] && trail == []
    {
      status := Idle;
      query := SearchQuery("", "", "USD", Driving, 25);
      coords := None;
      logs := [];
      results := [];
      strategyText := "";
      sources := [];
      trail := [];
    }

    /** The form's `setQuery`. */
    method EditQuery(q: SearchQuery)
      modifies this`query
      ensures query == q
    {
      query := q;
    }

    /** The geolocation callback, when the browser reports a position. */
    method Locate(c: Coords)
      modifies this`coords
      ensures coords == Some(c)
    {
      coords := Some(c);
    }

    /** `addLog`: the log grows by exactly one entry at its end. */
    method AddLog(message: string, kind: LogType, stamp: string)
      modifies this`logs
      ensures logs == old(logs) + [AgentLog(stamp, message, kind)]
    {
      logs := logs + [AgentLog(stamp, message, kind)];
    }

    /** `setStatus`. */
    method SetStatus(s: AgentStatus)
      modifies this`status, this`trail
      ensures status == s && trail == old(trail) + [s]
    {
      status := s;
      trail := trail + [s];
    }

    /** The catch block of `startMission`. */
    method Fail(message: string, svc: Service, text: Note -> string)
      modifies this`logs, this`status, this`trail
      ensures Snapshot() == Abort(old(Snapshot()), message, svc, text)
    {
      AddLog(text(MissionError(message)), Warning, svc.clock(|logs|));
      SetStatus(Idle);
    }

    /** The start of a run: STRATEGIZING set, the log, the results, the
        strategy and the sources emptied, then the three opening lines
        written to the empty log. */
    method Reset(q: SearchQuery, svc: Service, text: Note -> string)
      modifies this`status, this`trail, this`logs, this`results, this`strategyText, this`sources
      ensures Snapshot() == Opening(q, svc, text)
    {
      trail := [];
      SetStatus(Strategizing);
      logs := [];
      results := [];
      strategyText := "";
      sources := [];
      AddLog(text(Initiated(q.workLocation)), Agent, svc.clock(|logs|));
      AddLog(text(TargetCurrency(q.currency)), Info, svc.clock(|logs|));
      AddLog(text(CommuteZones), Info, svc.clock(|logs|));
    }

    /** `startMission`: without a work location or a budget nothing happens;
        otherwise the screen ends up in the state `Run` describes, whatever
        it showed before. */
    method StartMission(svc: Service, text: Note -> string)
      modifies this
      ensures query == old(query) && coords == old(coords)
      ensures !HasInputs(query) ==> Snapshot() == old(Snapshot())
      ensures HasInputs(query) ==> Snapshot() == Run(query, coords, svc, text)
    {
      if !HasInputs(query) {
        return;
      }
      var q, here := query, coords;
      Reset(q, svc, text);

      var strategy := svc.analyzeCommute(q, here);
      if strategy.Err? {
        Fail(strategy.message, svc, text);
        return;
      }
      strategyText := strategy.value;
      AddLog(text(ClustersVerified), Success, svc.clock(|logs|));
      assert Snapshot() == Strategized(Opening(q, svc, text), strategy.value, svc, text);
      HuntAndClose(q, svc, text);
    }

    /** The hunting phase once the strategy is stored: discovery, the
        listing count (or the zero-matches warning), then the outreach
        phase. */
    method HuntAndClose(q: SearchQuery, svc: Service, text: Note -> string)
      modifies this`logs, this`results, this`sources, this`status, this`trail
      ensures Snapshot() == Hunt(old(Snapshot()), q, svc, text)
    {
      SetStatus(Hunting);
      AddLog(text(Scanning), Agent, svc.clock(|logs|));
      AddLog(text(Synthesizing), Info, svc.clock(|logs|));
      ghost var hunting := Snapshot();
      assert hunting == StartHunt(old(Snapshot()), svc, text);
      var found := svc.findListings(q);
      if found.Err? {
        Fail(found.message, svc, text);
        return;
      }
      var listings := found.value.listings;
      sources := found.value.sources;
      results := listings;
      if |listings| == 0 {
        AddLog(text(ZeroMatches), Warning, svc.clock(|logs|));
      } else {
        AddLog(text(Extracted(|listings|)), Success, svc.clock(|logs|));
      }
      SetStatus(Closing);
      AddLog(text(OutreachStarts), Agent, svc.clock(|logs|));
      assert Snapshot() == Discovered(hunting, found.value, svc, text);
      Close(Batch(listings), svc, text);
    }

    /** The outreach loop over `batch` and the completion of the run: one
        inquiry per listing, in list order, each reply recorded on every
        result with that listing's id; a failed inquiry aborts the run. */
    method Close(batch: seq<Listing>, svc: Service, text: Note -> string)
      modifies this`logs, this`results, this`status, this`trail
      ensures Snapshot() == Outreach(old(Snapshot()), batch, 0, svc, text)
    {
      ghost var goal := Outreach(Snapshot(), batch, 0, svc, text);
      for k := 0 to |batch|
        invariant Outreach(Snapshot(), batch, k, svc, text) == goal
      {
        var listing := batch[k];
        ghost var before := Snapshot();
        AddLog(text(Transmitting(listing.source)), Info, svc.clock(|logs|));
        ghost var asked := Snapshot();
        assert asked == Say(before, Transmitting(listing.source), Info, svc, text);
        var reply := svc.simulateOutreach(k, listing);
        if reply.Err? {
          Fail(reply.message, svc, text);
          assert Snapshot() == Abort(asked, reply.message, svc, text);
          return;
        }
        // the 1500 ms pause changes no state
        var available := IsAvailable(reply.value);
        results := UpdateById(results, listing.id, available);
        AddLog(text(VerdictNote(listing, available)), VerdictKind(available), svc.clock(|logs|));
        assert Snapshot() == Record(asked, listing, available, svc, text);
      }
      SetStatus(Completed);
      AddLog(text(LifecycleCompleted), Success, svc.clock(|logs|));
    }

    /** A press of the start button: it is enabled only in IDLE and
        COMPLETED, and a press of the disabled button changes nothing. */
    method PressStart(svc: Service) returns (accepted: bool)
      modifies this
      ensures accepted == CanStart(old(status))
      ensures query == old(query) && coords == old(coords)
      ensures !(accepted && HasInputs(query)) ==> Snapshot() == old(Snapshot())
      ensures accepted && HasInputs(query) ==> Snapshot() == Run(query, coords, svc, Wording)
    {
      accepted := CanStart(status);
      if accepted {
        StartMission(svc, Wording);
      }
    }

    /** The listings shown in the verified schedule. */
    function VerifiedSchedule(): seq<Listing>
      reads this
    {
      Schedule(results)
    }

    /** The symbol shown beside the budget. */
    function BudgetSymbol(): string
      reads this
    {
      CurrentSymbol(query.currency)
    }
  }
}
