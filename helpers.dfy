/** The pure helpers of the mission screen (App.tsx): the currency table and
    symbol lookup, the availability test on an outreach reply, the by-id
    update of the results list, the derived "verified schedule", the input
    guard of a run and the enable condition of the start button. */
module MissionHelpers {
  import opened Types
  import opened Text

  // ---------------------------------------------------------------------
  // Currencies
  // ---------------------------------------------------------------------

  datatype Currency = Currency(code: string, symbol: string)

  /** The currencies offered by the query form, in display order. */
  const CURRENCIES: seq<Currency> := [
    Currency("USD", "$"),
    Currency("EUR", "€"),
    Currency("GBP", "£"),
    Currency("JPY", "¥"),
    Currency("INR", "₹"),
    Currency("AUD", "A$"),
    Currency("CAD", "C$"),
    Currency("SGD", "S$"),
    Currency("CHF", "Fr")
  ]

  /** The symbol shown when no currency matches. */
  const DEFAULT_SYMBOL: string := "$"

  /** The position of the first entry of `table[from..]` whose code is
      `code`, as `Array.prototype.find` scans it. */
  function FirstMatch(table: seq<Currency>, code: string, from: nat := 0): (r: Option<nat>)
    requires from <= |table|
    decreases |table| - from
    ensures r.Some? ==> from <= r.value < |table| && table[r.value].code == code
    ensures r.Some? ==> forall j :: from <= j < r.value ==> table[j].code != code
    ensures r.None? ==> forall j :: from <= j < |table| ==> table[j].code != code
  {
    if from == |table| then None
    else if table[from].code == code then Some(from)
    else FirstMatch(table, code, from + 1)
  }

  /** `find(c => c.code === code)?.symbol || '$'`: the symbol of the first
      matching entry, unless there is none or its symbol is empty text. */
  function SymbolFor(table: seq<Currency>, code: string): (sym: string)
    ensures sym != ""
    ensures (forall j :: 0 <= j < |table| ==> table[j].code != code) ==> sym == DEFAULT_SYMBOL
    ensures forall i :: 0 <= i < |table| && table[i].code == code &&
                        (forall j :: 0 <= j < i ==> table[j].code != code)
                        ==> sym == (if table[i].symbol != "" then table[i].symbol else DEFAULT_SYMBOL)
  {
    match FirstMatch(table, code)
    case None => DEFAULT_SYMBOL
    case Some(i) => if table[i].symbol != "" then table[i].symbol else DEFAULT_SYMBOL
  }

  /** The symbol displayed next to the budget field for `code`. */
  function CurrentSymbol(code: string): string {
    SymbolFor(CURRENCIES, code)
  }

  /** The codes of the currency table are pairwise distinct and every symbol
      is non-empty. */
  lemma CurrencyTableWellFormed()
    ensures forall i, j :: 0 <= i < j < |CURRENCIES| ==> CURRENCIES[i].code != CURRENCIES[j].code
    ensures forall i :: 0 <= i < |CURRENCIES| ==> CURRENCIES[i].symbol != ""
  {
  }

  /** The displayed symbol is that of the table entry with the query's code,
      and the default `$` when no entry has it. */
  lemma CurrentSymbolSpec(code: string)
    ensures forall i :: 0 <= i < |CURRENCIES| && CURRENCIES[i].code == code ==>
                        CurrentSymbol(code) == CURRENCIES[i].symbol
    ensures (forall i :: 0 <= i < |CURRENCIES| ==> CURRENCIES[i].code != code) ==>
            CurrentSymbol(code) == DEFAULT_SYMBOL
  {
    CurrencyTableWellFormed();
    forall i | 0 <= i < |CURRENCIES| && CURRENCIES[i].code == code
      ensures CurrentSymbol(code) == CURRENCIES[i].symbol
    {
      assert forall j :: 0 <= j < i ==> CURRENCIES[j].code != code;
    }
  }

  // ---------------------------------------------------------------------
  // Availability of an outreach reply
  // ---------------------------------------------------------------------

  /** The availability test applied to an outreach reply. */
  function IsAvailable(outcome: string): bool {
    Includes(Upper(outcome), "AVAILABLE") && !Includes(Upper(outcome), "SOLD OUT")
  }

  /** A reply confirms the unit exactly when, upper-cased, it mentions
      "AVAILABLE" and does not mention "SOLD OUT". */
  lemma AvailableMeaning(outcome: string)
    ensures IsAvailable(outcome) <==> Mentions(Upper(outcome), "AVAILABLE") && !Mentions(Upper(outcome), "SOLD OUT")
  {
  }

  /** The test ignores letter case: a reply and its upper-cased form are
      classified alike. */
  lemma AvailabilityIgnoresCase(outcome: string)
    ensures IsAvailable(Upper(outcome)) == IsAvailable(outcome)
  {
    UpperIdempotent(outcome);
  }

  /** "SOLD OUT" overrides "AVAILABLE": a reply mentioning "SOLD OUT" in any
      letter case is never classified available. */
  lemma SoldOutOverrides(outcome: string, i: nat)
    requires OccursAt(Upper(outcome), "SOLD OUT", i)
    ensures !IsAvailable(outcome)
  {
    IncludesAt(Upper(outcome), "SOLD OUT", i);
  }

  /** The bare reply "AVAILABLE" confirms the unit. */
  lemma BareAvailable(reply: string)
    requires reply == "AVAILABLE"
    ensures IsAvailable(reply)
  {
    UpperOfUpper(reply);
    IncludesAt(reply, "AVAILABLE", 0);
    AbsentCharExcludes(reply, "SOLD OUT", 0);
  }

  /** The bare reply "SOLD OUT" rejects the unit. */
  lemma BareSoldOut(reply: string)
    requires reply == "SOLD OUT"
    ensures !IsAvailable(reply)
  {
    UpperOfUpper(reply);
    IncludesAt(reply, "SOLD OUT", 0);
  }

  /** A confirmation written in mixed case is available. */
  lemma MixedCaseConfirmation(reply: string)
    requires reply == "Unit is AVAILABLE now"
    ensures IsAvailable(reply)
  {
    var u := Upper(reply);
    assert u[8..17] == "AVAILABLE" by {
      assert forall i :: 8 <= i < 17 ==> reply[i] == "AVAILABLE"[i - 8];
    }
    IncludesAt(u, "AVAILABLE", 8);
    assert 'D' !in u by {
      assert forall i :: 0 <= i < |reply| ==> reply[i] != 'D' && reply[i] != 'd';
    }
    AbsentCharExcludes(u, "SOLD OUT", 3);
  }

  /** "SOLD OUT" later in the reply overrides an earlier "AVAILABLE". */
  lemma SoldOutAfterAvailable(reply: string)
    requires reply == "AVAILABLE but SOLD OUT"
    ensures !IsAvailable(reply)
  {
    var u := Upper(reply);
    assert forall i :: 14 <= i < 22 ==> reply[i] == "SOLD OUT"[i - 14];
    assert u[14..22] == "SOLD OUT";
    SoldOutOverrides(reply, 14);
  }

  /** A reply that never mentions "AVAILABLE", in any letter case, is not
      available. */
  lemma RentedReply(reply: string)
    requires !Mentions(Upper(reply), "AVAILABLE")
    ensures !IsAvailable(reply)
  {
    AvailableMeaning(reply);
  }

  /** The owner's "Rented last week" rejects the unit. */
  lemma RentedLastWeek(reply: string)
    requires reply == "Rented last week"
    ensures !IsAvailable(reply)
  {
    var u := Upper(reply);
    assert forall i :: 0 <= i < |reply| ==> reply[i] != 'V' && reply[i] != 'v';
    AbsentCharExcludes(u, "AVAILABLE", 1);
  }

  /** The test looks for the letters "AVAILABLE" anywhere, not for the word:
      the reply "UNAVAILABLE" counts as a confirmation. */
  lemma UnavailableCountsAsAvailable(reply: string)
    requires reply == "UNAVAILABLE"
    ensures IsAvailable(reply)
  {
    UpperOfUpper(reply);
    assert reply[2..11] == "AVAILABLE";
    IncludesAt(reply, "AVAILABLE", 2);
    AbsentCharExcludes(reply, "SOLD OUT", 0);
  }

  // ---------------------------------------------------------------------
  // Updating the results after one outreach reply
  // ---------------------------------------------------------------------

  /** The agent note written on a confirmed listing. */
  const CONFIRMED_NOTE: string := "Confirmed: Unit is active. Verified visit window Sat @ 11:30 AM."
  /** The agent note written on a listing reported gone. */
  const REJECTED_NOTE: string := "Update: Owner reports unit just rented. Removing from sequence."

  /** A listing after its outreach reply: `replied` with the confirmation
      note when available, `rejected` with the update note otherwise; all
      display fields are kept. */
  function Mark(l: Listing, available: bool): Listing {
    l.(status := if available then Replied else Rejected,
       agentNote := Some(if available then CONFIRMED_NOTE else REJECTED_NOTE))
  }

  /** `results.map(l => l.id === id ? Mark(l) : l)`. */
  function UpdateById(results: seq<Listing>, id: string, available: bool): (r: seq<Listing>)
    ensures |r| == |results|
    ensures forall i :: 0 <= i < |results| && results[i].id == id ==> r[i] == Mark(results[i], available)
    ensures forall i :: 0 <= i < |results| && results[i].id != id ==> r[i] == results[i]
  {
    if results == [] then []
    else [if results[0].id == id then Mark(results[0], available) else results[0]]
         + UpdateById(results[1..], id, available)
  }

  /** The ids of a results list, in order. */
  function Ids(results: seq<Listing>): (ids: seq<string>)
    ensures |ids| == |results|
    ensures forall i :: 0 <= i < |results| ==> ids[i] == results[i].id
  {
    if results == [] then [] else [results[0].id] + Ids(results[1..])
  }

  /** An update keeps the length and the order of the list: position by
      position the ids are those of the input. */
  lemma UpdateKeepsIds(results: seq<Listing>, id: string, available: bool)
    ensures Ids(UpdateById(results, id, available)) == Ids(results)
  {
  }

  /** Recording the same reply twice is the same as recording it once. */
  lemma {:induction false} UpdateIdempotent(results: seq<Listing>, id: string, available: bool)
    ensures UpdateById(UpdateById(results, id, available), id, available) == UpdateById(results, id, available)
  {
    if results != [] {
      UpdateIdempotent(results[1..], id, available);
      assert UpdateById(results, id, available)[1..] == UpdateById(results[1..], id, available);
    }
  }

  /** Updates for two different ids touch disjoint entries, so they commute. */
  lemma {:induction false} UpdatesCommute(results: seq<Listing>, id1: string, a1: bool, id2: string, a2: bool)
    requires id1 != id2
    ensures UpdateById(UpdateById(results, id1, a1), id2, a2) ==
            UpdateById(UpdateById(results, id2, a2), id1, a1)
  {
    if results != [] {
      UpdatesCommute(results[1..], id1, a1, id2, a2);
      assert UpdateById(results, id1, a1)[1..] == UpdateById(results[1..], id1, a1);
      assert UpdateById(results, id2, a2)[1..] == UpdateById(results[1..], id2, a2);
    }
  }

  // ---------------------------------------------------------------------
  // The verified schedule
  // ---------------------------------------------------------------------

  /** `results.filter(r => r.status === 'replied')`. */
  function Schedule(results: seq<Listing>): (r: seq<Listing>)
    ensures |r| <= |results|
  {
    if results == [] then []
    else (if results[0].status == Replied then [results[0]] else []) + Schedule(results[1..])
  }

  /** The schedule holds exactly the replied entries. */
  lemma {:induction false} ScheduleMembers(results: seq<Listing>)
    ensures forall l :: l in Schedule(results) <==> l in results && l.status == Replied
  {
    if results != [] {
      ScheduleMembers(results[1..]);
      assert results == [results[0]] + results[1..];
    }
  }

  /** `xs` can be obtained from `ys` by deleting entries: it keeps their
      relative order. */
  predicate IsSubsequence(xs: seq<Listing>, ys: seq<Listing>)
    decreases |ys|
  {
    if xs == [] then true
    else if ys == [] then false
    else if xs[0] == ys[0] then IsSubsequence(xs[1..], ys[1..])
    else IsSubsequence(xs, ys[1..])
  }

  /** The schedule lists the replied entries in their original order. */
  lemma {:induction false} ScheduleIsSubsequence(results: seq<Listing>)
    ensures IsSubsequence(Schedule(results), results)
  {
    if results != [] {
      ScheduleIsSubsequence(results[1..]);
      if results[0].status == Replied {
        assert Schedule(results)[0] == results[0];
        assert Schedule(results)[1..] == Schedule(results[1..]);
      } else {
        assert Schedule(results) == Schedule(results[1..]);
        if Schedule(results) != [] {
          ScheduleHeadIsReplied(results[1..]);
        }
      }
    }
  }

  lemma ScheduleHeadIsReplied(results: seq<Listing>)
    requires Schedule(results) != []
    ensures Schedule(results)[0].status == Replied
  {
    ScheduleMembers(results);
    assert Schedule(results)[0] in Schedule(results);
  }

  /** Filtering distributes over concatenation, so the schedule of a list is
      assembled entry by entry, each replied entry keeping its multiplicity. */
  lemma {:induction false} ScheduleAppend(a: seq<Listing>, b: seq<Listing>)
    ensures Schedule(a + b) == Schedule(a) + Schedule(b)
  {
    if a != [] {
      ScheduleAppend(a[1..], b);
      assert (a + b)[1..] == a[1..] + b;
    } else {
      assert a + b == b;
    }
  }

  /** After the reply for `id` is recorded as available, every entry with
      that id (now confirmed) is in the schedule; after a rejection, none is. */
  lemma UpdateAndSchedule(results: seq<Listing>, id: string, available: bool)
    ensures forall i :: 0 <= i < |results| && results[i].id == id ==>
              (Mark(results[i], available) in Schedule(UpdateById(results, id, available)) <==> available)
  {
    ScheduleMembers(UpdateById(results, id, available));
  }

  // ---------------------------------------------------------------------
  // Run guards
  // ---------------------------------------------------------------------

  /** `!query.workLocation || !query.budget` is false: both are non-empty. */
  predicate HasInputs(q: SearchQuery) {
    q.workLocation != "" && q.budget != ""
  }

  /** `disabled={status !== IDLE && status !== COMPLETED}` is false. */
  predicate CanStart(status: AgentStatus) {
    status == Idle || status == Completed
  }
}
