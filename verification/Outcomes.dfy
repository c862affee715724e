/**
  Any sequence of exchange results applied to one conversion, through the settlement's applyOutcome
  with throwing calls rolled back (src/modules/conversion/domain/conversion.ts:189-240). This also
  covers the resolution of a conversion that waits for reconciliation.
*/
module Outcomes {
  import opened Common
  import opened Conversions
  import opened Tables
  import opened Transactions

  datatype Notice = Notice(outcome: Outcome, at: int, reason: Option<string>)

  function Attempt(db: Db, id: Id, n: Notice): Result<Db, SettleError>
    requires id in db.conversions
  {
    ApplyOutcome(db, id, db.conversions[id], n.outcome, n.at, n.reason)
  }

  /** A throwing call leaves the database as it was. */
  function Apply(db: Db, id: Id, n: Notice): (after: Db)
    requires id in db.conversions
    ensures id in after.conversions
  {
    match Attempt(db, id, n)
    case Ok(d) => d
    case Err(_) => db
  }

  function ApplyAll(db: Db, id: Id, ns: seq<Notice>): (after: Db)
    requires id in db.conversions
    ensures id in after.conversions
  {
    if ns == [] then db else Apply(ApplyAll(db, id, ns[..|ns| - 1]), id, ns[|ns| - 1])
  }

  /** The position of the first SUCCESS or FAILURE; the length when there is none. */
  function FirstDecisive(ns: seq<Notice>): (i: nat)
    ensures i <= |ns|
    ensures forall k :: 0 <= k < i ==> ns[k].outcome == Unknown
    ensures i < |ns| ==> ns[i].outcome != Unknown
  {
    if ns == [] || ns[0].outcome != Unknown then 0 else 1 + FirstDecisive(ns[1..])
  }

  /** A conversion that waits for its first result. */
  predicate Waiting(db: Db, id: Id) {
    id in db.conversions && db.conversions[id].status == ExecutionRequested && db.conversions[id].completedAt.None?
  }

  /** The wallets can carry out what a result asks for. */
  predicate CanMove(db: Db, id: Id, o: Outcome)
    requires id in db.conversions
  {
    MoveFunds(db.wallets, db.conversions[id], o).Ok?
  }

  /** The results of a sequence whose movement the wallets can carry out. */
  function Heeded(db: Db, id: Id, ns: seq<Notice>): (h: seq<Notice>)
    requires id in db.conversions
    ensures |h| <= |ns|
    ensures forall i :: 0 <= i < |h| ==> CanMove(db, id, h[i].outcome)
  {
    if ns == [] then []
    else
      var k := |ns| - 1;
      Heeded(db, id, ns[..k]) + (if CanMove(db, id, ns[k].outcome) then [ns[k]] else [])
  }

  /** What the whole sequence amounts to: its first decisive result alone; without one, the first
      UNKNOWN; without any result, nothing. */
  function Verdict(db: Db, id: Id, ns: seq<Notice>): Db
    requires id in db.conversions
  {
    var i := FirstDecisive(ns);
    if i < |ns| then Apply(db, id, ns[i])
    else if ns != [] then Apply(db, id, ns[0])
    else db
  }

  lemma FirstDecisiveOfPrefix(ns: seq<Notice>, n: Notice)
    ensures FirstDecisive(ns + [n]) == if FirstDecisive(ns) < |ns| then FirstDecisive(ns)
                                       else if n.outcome != Unknown then |ns| else |ns| + 1
  {
    hide FirstDecisive;
    var all := ns + [n];
    var i, j := FirstDecisive(all), FirstDecisive(ns);
    assert all[|ns|] == n;
    assert forall m :: 0 <= m < |ns| ==> all[m] == ns[m];
  }

  /** Once a decisive result is in, the same result again changes nothing and any other one throws. */
  lemma DecisiveIsFinal(db: Db, id: Id, first: Notice, later: Notice)
    requires Waiting(db, id) && first.outcome != Unknown && CanMove(db, id, first.outcome)
    ensures var settled := Apply(db, id, first);
            && OutcomeOf(settled.conversions[id].status) == first.outcome
            && (Attempt(settled, id, later).Ok? <==> later.outcome == first.outcome)
            && Apply(settled, id, later) == settled
  {
    var settled := Apply(db, id, first);
    assert Attempt(db, id, first).Ok?;
    assert MoveFunds(settled.wallets, settled.conversions[id], later.outcome) == Ok(settled.wallets);
  }

  /** An UNKNOWN only parks the conversion: a later result throws exactly if the wallets cannot carry it out;
      otherwise it still gives what it would have given at once, and a second UNKNOWN changes nothing. */
  lemma UnknownOnlyParks(db: Db, id: Id, first: Notice, later: Notice)
    requires Waiting(db, id) && first.outcome == Unknown
    ensures var parked := Apply(db, id, first);
            && parked.wallets == db.wallets && parked.conversions[id].status == RequiresReconciliation
            && (Attempt(parked, id, later).Ok? <==> CanMove(db, id, later.outcome))
            && Apply(parked, id, later) == if later.outcome == Unknown || !CanMove(db, id, later.outcome) then parked
                                           else Apply(db, id, later)
  {
    var c := db.conversions[id];
    var parked := Apply(db, id, first);
    var p := parked.conversions[id];
    assert p == c.(status := RequiresReconciliation, failureReason := ReasonOr(first.reason, "execution_unknown"));
    assert MoveFunds(parked.wallets, p, later.outcome).Ok? == MoveFunds(db.wallets, c, later.outcome).Ok?;
    if later.outcome == Unknown {
      assert SaveConversion(parked.conversions, id, p) == parked.conversions;
    } else if CanMove(db, id, later.outcome) {
      assert MoveFunds(parked.wallets, p, later.outcome) == MoveFunds(db.wallets, c, later.outcome);
      var r := ApplyResult(p, later.outcome, later.at, later.reason).value;
      assert SaveConversion(parked.conversions, id, r) == SaveConversion(db.conversions, id, r);
    }
  }

  /** A first result throws exactly if the wallets cannot carry it out. */
  lemma FirstResult(db: Db, id: Id, n: Notice)
    requires Waiting(db, id)
    ensures Attempt(db, id, n).Ok? <==> CanMove(db, id, n.outcome)
  {
  }

  /** One more result after a sequence that stands at its verdict. */
  lemma NextResult(db: Db, id: Id, heeded: seq<Notice>, n: Notice)
    requires Waiting(db, id) && forall i :: 0 <= i < |heeded| ==> CanMove(db, id, heeded[i].outcome)
    ensures var at, i := Verdict(db, id, heeded), FirstDecisive(heeded);
            && id in at.conversions
            && Apply(at, id, n) == (if CanMove(db, id, n.outcome) then Verdict(db, id, heeded + [n]) else at)
            && (Attempt(at, id, n).Err? <==> if i < |heeded| then heeded[i].outcome != n.outcome
                                             else !CanMove(db, id, n.outcome))
  {
    hide Apply, Attempt, CanMove, FirstDecisive;
    FirstDecisiveOfPrefix(heeded, n);
    FirstResult(db, id, n);
    var i := FirstDecisive(heeded);
    if i < |heeded| {
      assert (heeded + [n])[i] == heeded[i];
      DecisiveIsFinal(db, id, heeded[i], n);
    } else if heeded != [] {
      assert (heeded + [n])[0] == heeded[0] && (heeded + [n])[|heeded|] == n;
      UnknownOnlyParks(db, id, heeded[0], n);
    } else {
      assert (heeded + [n])[0] == n;
      if Attempt(db, id, n).Err? {
        ThrowKeeps(db, id, n);
      }
    }
  }

  lemma ThrowKeeps(db: Db, id: Id, n: Notice)
    requires id in db.conversions && Attempt(db, id, n).Err?
    ensures Apply(db, id, n) == db
  {
  }

  /** For every conversion that waits for its first result and every finite sequence of results: the final
      database (status, completion time, failure reason and every wallet) is the verdict of those results
      that the wallets can carry out. */
  lemma {:induction false} SequenceIsItsVerdict(db: Db, id: Id, ns: seq<Notice>)
    requires Waiting(db, id)
    ensures ApplyAll(db, id, ns) == Verdict(db, id, Heeded(db, id, ns))
  {
    hide CanMove, Apply, Verdict, FirstDecisive;
    if ns == [] {
      NoResult(db, id);
    } else {
      var k := |ns| - 1;
      SequenceIsItsVerdict(db, id, ns[..k]);
      NextResult(db, id, Heeded(db, id, ns[..k]), ns[k]);
      assert !CanMove(db, id, ns[k].outcome) ==> Heeded(db, id, ns) == Heeded(db, id, ns[..k]);
    }
  }

  lemma NoResult(db: Db, id: Id)
    requires id in db.conversions
    ensures Verdict(db, id, []) == db
  {
  }

  /** A call throws exactly when an earlier decisive result that was carried out disagrees with it or, without
      one, when the wallets cannot carry it out. */
  lemma ThrowsIff(db: Db, id: Id, ns: seq<Notice>, k: nat)
    requires Waiting(db, id) && k < |ns|
    ensures var earlier := Heeded(db, id, ns[..k]);
            var i := FirstDecisive(earlier);
            Attempt(ApplyAll(db, id, ns[..k]), id, ns[k]).Err?
            <==> if i < |earlier| then earlier[i].outcome != ns[k].outcome else !CanMove(db, id, ns[k].outcome)
  {
    hide CanMove, Attempt, Apply, Verdict, FirstDecisive;
    SequenceIsItsVerdict(db, id, ns[..k]);
    NextResult(db, id, Heeded(db, id, ns[..k]), ns[k]);
  }

  // ----- the promise, and when it holds

  /** What the aggregate promises of every sequence: its own first decisive result alone decides. */
  ghost predicate FirstDecisiveDecides(db: Db, id: Id)
    requires id in db.conversions
  {
    forall ns :: ApplyAll(db, id, ns) == Verdict(db, id, ns)
  }

  /** And calls throw exactly when they disagree with it. */
  ghost predicate OnlyDisagreementThrows(db: Db, id: Id)
    requires id in db.conversions
  {
    forall ns: seq<Notice>, k: nat | k < |ns| ::
      Attempt(ApplyAll(db, id, ns[..k]), id, ns[k]).Err?
      <==> FirstDecisive(ns[..k]) < k && ns[FirstDecisive(ns[..k])].outcome != ns[k].outcome
  }

  lemma {:induction false} AllHeeded(db: Db, id: Id, ns: seq<Notice>)
    requires id in db.conversions && CanMove(db, id, Success) && CanMove(db, id, Failure)
    ensures Heeded(db, id, ns) == ns
  {
    hide CanMove;
    if ns == [] {
    } else {
      var k := |ns| - 1;
      AllHeeded(db, id, ns[..k]);
      EveryOutcome(db, id, ns[k].outcome);
      assert ns == ns[..k] + [ns[k]];
    }
  }

  /** A result that the wallets cannot carry out breaks both: it throws at once, and after an UNKNOWN the
      conversion is parked although its verdict is a rolled-back call. */
  lemma ImmovableBreaksThePromise(db: Db, id: Id, o: Outcome)
    requires Waiting(db, id) && !CanMove(db, id, o)
    ensures !FirstDecisiveDecides(db, id) && !OnlyDisagreementThrows(db, id)
  {
    hide CanMove, Attempt, Apply, Verdict;
    var parking, immovable := Notice(Unknown, 0, None), Notice(o, 0, None);
    FirstResult(db, id, immovable);
    assert [immovable][..0] == [] && ApplyAll(db, id, []) == db;
    assert Attempt(ApplyAll(db, id, [immovable][..0]), id, [immovable][0]).Err?;
    TwoResults(db, id, parking, immovable);
  }

  lemma TwoResults(db: Db, id: Id, parking: Notice, n: Notice)
    requires Waiting(db, id) && parking.outcome == Unknown && !CanMove(db, id, n.outcome)
    ensures ApplyAll(db, id, [parking, n]) != Verdict(db, id, [parking, n])
  {
    hide CanMove, Attempt;
    var ns := [parking, n];
    assert ns[..1] == [parking] && [parking][..0] == [] && ApplyAll(db, id, []) == db;
    assert ApplyAll(db, id, ns) == Apply(Apply(db, id, parking), id, n);
    UnknownOnlyParks(db, id, parking, n);
    FirstResult(db, id, n);
    ThrowKeeps(db, id, n);
    UnknownMoves(db, id);
    assert FirstDecisive(ns) == 1;
  }

  lemma UnknownMoves(db: Db, id: Id)
    requires id in db.conversions
    ensures CanMove(db, id, Unknown)
  {
  }

  /** Each of the two promises holds of a waiting conversion, for all sequences, if and only if the wallets
      can carry out a SUCCESS and a FAILURE. */
  lemma PromisesHoldIff(db: Db, id: Id)
    requires Waiting(db, id)
    ensures FirstDecisiveDecides(db, id) <==> CanMove(db, id, Success) && CanMove(db, id, Failure)
    ensures OnlyDisagreementThrows(db, id) <==> CanMove(db, id, Success) && CanMove(db, id, Failure)
  {
    hide CanMove, Attempt, Verdict, ApplyAll;
    if !CanMove(db, id, Success) {
      ImmovableBreaksThePromise(db, id, Success);
    } else if !CanMove(db, id, Failure) {
      ImmovableBreaksThePromise(db, id, Failure);
    } else {
      forall ns ensures ApplyAll(db, id, ns) == Verdict(db, id, ns) {
        SequenceIsItsVerdict(db, id, ns);
        AllHeeded(db, id, ns);
      }
      forall ns: seq<Notice>, k: nat | k < |ns|
        ensures Attempt(ApplyAll(db, id, ns[..k]), id, ns[k]).Err?
           <==> FirstDecisive(ns[..k]) < k && ns[FirstDecisive(ns[..k])].outcome != ns[k].outcome
      {
        ThrowsIff(db, id, ns, k);
        AllHeeded(db, id, ns[..k]);
        EveryOutcome(db, id, ns[k].outcome);
      }
    }
  }

  lemma EveryOutcome(db: Db, id: Id, o: Outcome)
    requires id in db.conversions && CanMove(db, id, Success) && CanMove(db, id, Failure)
    ensures CanMove(db, id, o)
  {
  }
}
