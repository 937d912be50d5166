/** Message ids as the gateway sends them: which uploads of a run are told the same
    file, and how each single upload is answered. */
module UploadIds {
  import opened Wrappers
  import opened UploadProtocol
  import opened MediaDoor

  // --- from the sent request to its upload --------------------------------------------

  /** Whether an id was sent at all. */
  predicate HasId(id: Option<string>) { id.Some? && id.value != "" }

  /** The part of an id that counts. */
  function Cut(id: string): string { if |id| <= 200 then id else id[..200] }

  lemma BoundedIdIs(id: Option<string>)
    ensures BoundedId(id) == if HasId(id) then Some(Cut(id.value)) else None
    ensures HasId(id) ==> Cut(id.value) != ""
  {
  }

  ghost function Arrivals(actions: seq<Action>): nat {
    if actions == [] then 0
    else Arrivals(actions[..|actions| - 1]) + if actions[|actions| - 1].Arrive? then 1 else 0
  }

  /** The answer, so far, to the request that the `k`-th action brings. */
  ghost function AnswerTo(actions: seq<Action>, k: nat): Option<Outcome>
    requires k < |actions| && actions[k].Arrive?
  {
    SentIsKept(actions, k);
    var phase := Run(EMPTY, actions).uploads[Arrivals(actions[..k])].phase;
    if phase.Done? then Some(phase.outcome) else None
  }

  ghost predicate FileTold(actions: seq<Action>, k: nat)
    requires k < |actions| && actions[k].Arrive?
  {
    AnswerTo(actions, k).Some? && AnswerTo(actions, k).value.Stored?
  }

  lemma StepKeepsRequests(s: System, a: Action)
    ensures |Step(s, a).uploads| == |s.uploads| + if a.Arrive? then 1 else 0
    ensures forall p :: 0 <= p < |s.uploads| ==> Step(s, a).uploads[p].request == s.uploads[p].request
    ensures a.Arrive? ==> Step(s, a).uploads[|s.uploads|].request == a.request.(message := BoundedId(a.request.message))
  {
    hide FindRow, BoundedId, Admission;
  }

  lemma {:induction false} UploadsAreArrivals(actions: seq<Action>)
    ensures |Run(EMPTY, actions).uploads| == Arrivals(actions)
  {
    hide Step;
    if actions != [] {
      UploadsAreArrivals(actions[..|actions| - 1]);
      StepKeepsRequests(Run(EMPTY, actions[..|actions| - 1]), actions[|actions| - 1]);
    }
  }

  /** A request stays as it was sent, but for the bound on its id. */
  lemma {:induction false} SentIsKept(actions: seq<Action>, k: nat)
    requires k < |actions| && actions[k].Arrive?
    ensures Arrivals(actions[..k]) < |Run(EMPTY, actions).uploads|
    ensures Run(EMPTY, actions).uploads[Arrivals(actions[..k])].request ==
      actions[k].request.(message := BoundedId(actions[k].request.message))
    decreases |actions|
  {
    hide Step, BoundedId;
    var front := actions[..|actions| - 1];
    StepKeepsRequests(Run(EMPTY, front), actions[|actions| - 1]);
    if k < |front| {
      SentIsKept(front, k);
      assert front[..k] == actions[..k];
    } else {
      UploadsAreArrivals(front);
    }
  }

  lemma {:induction false} ArrivalsApart(actions: seq<Action>, k: nat, l: nat)
    requires k < l <= |actions| && actions[k].Arrive?
    ensures Arrivals(actions[..k]) < Arrivals(actions[..l])
    decreases l
  {
    assert actions[..l][..l - 1] == actions[..l - 1];
    if k < l - 1 { ArrivalsApart(actions, k, l - 1); }
  }

  // --- files without an id ---------------------------------------------------------------

  /** Answered with a file. */
  ghost predicate Told(u: Upload) { u.phase.Done? && u.phase.outcome.Stored? }

  ghost predicate Nameless(u: Upload) { Told(u) && u.request.message.None? }

  /** Uploads without an id are told different files. */
  ghost predicate NamelessApart(uploads: seq<Upload>) {
    forall p, q :: 0 <= p < q < |uploads| && Nameless(uploads[p]) && Nameless(uploads[q]) ==>
      uploads[p].phase.outcome.receipt.id != uploads[q].phase.outcome.receipt.id
  }

  lemma ToldHasRow(s: System, q: nat)
    requires Inv(s) && q < |s.uploads| && Told(s.uploads[q])
    ensures exists i :: 0 <= i < |s.rows| && s.rows[i].id == s.uploads[q].phase.outcome.receipt.id
  {
    assert InOrder(s, s.uploads[q]);
    var u := s.uploads[q];
    var i :| 0 <= i < |s.rows| && s.rows[i].business == u.request.business && s.rows[i].message == u.request.message &&
      ReceiptOf(s.rows[i]) == u.phase.outcome.receipt;
    assert s.rows[i].id == u.phase.outcome.receipt.id;
  }

  /** An upload without an id is told of a file only by recording its own. */
  lemma NamelessIsNew(s: System, a: Action, p: nat)
    requires Inv(s) && p < |s.uploads| && s.uploads[p].request.message.None?
    ensures
      var s' := Step(s, a);
      p < |s'.uploads| &&
      (Told(s'.uploads[p]) && s'.uploads[p] != s.uploads[p] ==>
        !a.Arrive? && a.p == p && s.uploads[p].phase == Inserting(s'.uploads[p].phase.outcome.receipt.id))
  {
    hide FindRow, BoundedId, Admission;
    assert InOrder(s, s.uploads[p]);
  }

  lemma StepKeepsApart(s: System, a: Action)
    requires Inv(s) && NamelessApart(s.uploads)
    ensures NamelessApart(Step(s, a).uploads)
  {
    hide Step, Inv;
    var s' := Step(s, a);
    StepKeepsRequests(s, a);
    Newcomer(s, a);
    forall p, q | 0 <= p < q < |s'.uploads| && Nameless(s'.uploads[p]) && Nameless(s'.uploads[q])
      ensures s'.uploads[p].phase.outcome.receipt.id != s'.uploads[q].phase.outcome.receipt.id
    {
      NamelessIsNew(s, a, p);
      NamelessIsNew(s, a, q);
      if s'.uploads[p] != s.uploads[p] {
        OnlyOneMoves(s, a, p, q);
        HeldIsNew(s, p, q);
      } else if s'.uploads[q] != s.uploads[q] {
        HeldIsNew(s, q, p);
      }
    }
  }

  lemma Newcomer(s: System, a: Action)
    ensures a.Arrive? ==>
      Step(s, a).uploads == s.uploads + [Upload(a.request.(message := BoundedId(a.request.message)), Probing)]
  {
    hide BoundedId;
  }

  lemma OnlyOneMoves(s: System, a: Action, p: nat, q: nat)
    requires p < |s.uploads| && q < |s.uploads| && p != q && !a.Arrive? && a.p == p
    ensures |Step(s, a).uploads| == |s.uploads| && Step(s, a).uploads[q] == s.uploads[q]
  {
    hide FindRow, Admission;
  }

  /** The id of an object that has no row yet is nobody's receipt. */
  lemma HeldIsNew(s: System, p: nat, q: nat)
    requires Inv(s) && p < |s.uploads| && s.uploads[p].phase.Inserting?
    requires q < |s.uploads| && Told(s.uploads[q])
    ensures s.uploads[p].phase.id != s.uploads[q].phase.outcome.receipt.id
  {
    ToldHasRow(s, q);
    assert Held(s.uploads[p]).Some?;
  }

  lemma {:induction false} RunKeepsApart(actions: seq<Action>)
    ensures NamelessApart(Run(EMPTY, actions).uploads)
  {
    hide Step, Inv;
    if actions != [] {
      RunKeepsApart(actions[..|actions| - 1]);
      RunKeeps(actions[..|actions| - 1]);
      StepKeepsApart(Run(EMPTY, actions[..|actions| - 1]), actions[|actions| - 1]);
    }
  }

  // --- the laws -----------------------------------------------------------------------------

  /** Whatever the interleaving and the faults, two requests of a run that are both
      answered with a file are told the same file exactly when they are of one
      business and were sent ids with the same first 200 characters; a request
      without an id shares its file with none. */
  lemma SameFileExactlyWhen(actions: seq<Action>, k: nat, l: nat)
    requires k < l < |actions| && actions[k].Arrive? && actions[l].Arrive?
    requires FileTold(actions, k) && FileTold(actions, l)
    ensures
      var (a, b) := (actions[k].request, actions[l].request);
      var (r, t) := (AnswerTo(actions, k).value.receipt, AnswerTo(actions, l).value.receipt);
      && (r.id == t.id <==> r == t)
      && (r == t <==>
            && a.business == b.business && HasId(a.message) && HasId(b.message)
            && Cut(a.message.value) == Cut(b.message.value))
  {
    hide Step, Inv, BoundedId, Cut, HasId, NamelessApart;
    SentIsKept(actions, k);
    SentIsKept(actions, l);
    ArrivalsApart(actions, k, l);
    BoundedIdIs(actions[k].request.message);
    BoundedIdIs(actions[l].request.message);
    RunKeeps(actions);
    RunKeepsApart(actions);
    ToldAlike(Run(EMPTY, actions), Arrivals(actions[..k]), Arrivals(actions[..l]));
  }

  lemma ToldAlike(s: System, p: nat, q: nat)
    requires Inv(s) && NamelessApart(s.uploads) && p < q < |s.uploads|
    requires Told(s.uploads[p]) && Told(s.uploads[q])
    ensures
      var (u, v) := (s.uploads[p], s.uploads[q]);
      var (r, t) := (u.phase.outcome.receipt, v.phase.outcome.receipt);
      && (r.id == t.id <==> r == t)
      && (r == t <==>
            && u.request.business == v.request.business && u.request.message == v.request.message
            && u.request.message.Some?)
  {
    hide RowsBacked, HoldersApart, NoRowHeld, Owned, KeysKnown;
    var (u, v) := (s.uploads[p], s.uploads[q]);
    assert InOrder(s, u) && InOrder(s, v);
    var i :| 0 <= i < |s.rows| && s.rows[i].business == u.request.business && s.rows[i].message == u.request.message &&
      ReceiptOf(s.rows[i]) == u.phase.outcome.receipt;
    var j :| 0 <= j < |s.rows| && s.rows[j].business == v.request.business && s.rows[j].message == v.request.message &&
      ReceiptOf(s.rows[j]) == v.phase.outcome.receipt;
  }

  /** Ids of at most 200 characters that differ are never told the same file. */
  lemma ShortIdsAreApart(actions: seq<Action>, k: nat, l: nat)
    requires k < l < |actions| && actions[k].Arrive? && actions[l].Arrive?
    requires FileTold(actions, k) && FileTold(actions, l)
    requires actions[k].request.message.Some? && |actions[k].request.message.value| <= 200
    requires actions[l].request.message.Some? && |actions[l].request.message.value| <= 200
    requires actions[k].request.message != actions[l].request.message
    ensures AnswerTo(actions, k).value.receipt.id != AnswerTo(actions, l).value.receipt.id
  {
    SameFileExactlyWhen(actions, k, l);
  }

  /** A retry: a request with the business and the id of one that was answered with a
      file is answered with the same file, and changes neither the table nor the
      bucket, whatever body it brings and whatever fails. */
  lemma RetryChangesNothing(
    actions: seq<Action>, k: nat, request: Request, fault: PutFault, raises: bool, fails: bool)
    requires k < |actions| && actions[k].Arrive?
    requires FileTold(actions, k)
    requires request.business == actions[k].request.business && request.message == actions[k].request.message
    requires request.message.Some? && request.message.value != ""
    ensures
      var s := Run(EMPTY, actions);
      var s' := Alone(s, request, fault, raises, fails);
      && s'.rows == s.rows && s'.objects == s.objects && s'.nextId == s.nextId && s'.lost == s.lost
      && |s'.uploads| == |s.uploads| + 1 && s'.uploads[|s.uploads|].phase == Done(AnswerTo(actions, k).value)
  {
    hide Step, Inv, BoundedId;
    var s := Run(EMPTY, actions);
    SentIsKept(actions, k);
    BoundedIdIs(request.message);
    RunKeeps(actions);
    ReceiptsAreRows(actions, Arrivals(actions[..k]));
    var receipt := AnswerTo(actions, k).value.receipt;
    assert HasRow(s.rows, request.business, BoundedId(request.message), receipt);
    var i :| 0 <= i < |s.rows| && s.rows[i].business == request.business &&
      s.rows[i].message == BoundedId(request.message) && ReceiptOf(s.rows[i]) == receipt;
    RetryIsAnsweredFromTheRow(s, request, fault, raises, fails, s.rows[i]);
  }

  // --- one upload ------------------------------------------------------------------------------

  /** No row of this business carries this id. */
  ghost predicate Unrecorded(rows: seq<Row>, request: Request) {
    forall i :: 0 <= i < |rows| ==>
      !(HasId(request.message) && rows[i].business == request.business &&
        rows[i].message == Some(Cut(request.message.value)))
  }

  /** What a request that is not recorded yet is told, in the order of the checks. */
  ghost function Verdict(request: Request, fault: PutFault, raises: bool, id: nat): Outcome {
    if |request.payload| > 10485760 then Refused(TooLarge)
    else if request.payload == [] then Refused(EmptyFile)
    else if request.sniffed.None? then Refused(TypeNotAllowed)
    else if fault.Unset? then Refused(NotConfigured)
    else if fault.Down? then Refused(Unavailable)
    else if raises then Refused(NotRecorded)
    else Stored(Receipt(id, request.sniffed.value, |request.payload|))
  }

  lemma UnrecordedIsNotFound(rows: seq<Row>, request: Request)
    ensures Unrecorded(rows, request) <==>
      (HasId(request.message) ==> FindRow(rows, request.business, Cut(request.message.value)).None?)
  {
    hide FindRow, Cut;
    if HasId(request.message) { FoundRow(rows, request.business, Cut(request.message.value)); }
  }

  /** An upload served alone whose id is not recorded: the first check that fails
      decides the answer; a file is recorded under its own row and object exactly when
      none does, and only then does the table change; the bucket keeps an object
      without a row only where the row failed and then its deletion did. */
  lemma AnsweredAlone(s: System, request: Request, fault: PutFault, raises: bool, fails: bool)
    requires Unrecorded(s.rows, request)
    ensures
      var s' := Alone(s, request, fault, raises, fails);
      var verdict := Verdict(request, fault, raises, s.nextId);
      var key := ObjectKey(request.business, s.nextId);
      var id := if HasId(request.message) then Some(Cut(request.message.value)) else None;
      && s'.uploads == s.uploads + [Upload(request.(message := id), Done(verdict))]
      && s'.rows == (if verdict.Stored?
           then s.rows + [Row(s.nextId, request.business, id, request.sniffed.value, |request.payload|)] else s.rows)
      && (verdict.Stored? || (verdict == Refused(NotRecorded) && fails) ==>
            s'.objects == s.objects[key := request.payload])
      && (verdict == Refused(NotRecorded) && !fails ==> s'.objects == s.objects[key := request.payload] - {key})
      && (verdict.Refused? && verdict != Refused(NotRecorded) ==> s'.objects == s.objects)
      && s'.lost == (if verdict == Refused(NotRecorded) && fails then s.lost + {key} else s.lost)
  {
    hide Step, FindRow, BoundedId, Cut, HasId, Unrecorded;
    UnrecordedIsNotFound(s.rows, request);
    BoundedIdIs(request.message);
    var p := |s.uploads|;
    ArriveIs(s, request);
    var s1 := Step(s, Arrive(request));
    ProbeIs(s1, p);
    var s2 := Step(s1, Probe(p));
    assert s2.uploads == s.uploads + [Upload(request.(message := BoundedId(request.message)), Receiving)];
    ReceiveIs(s2, p);
    var s3 := Step(s2, Receive(p));
    if Admission(s2.uploads[p].request).Some? {
      AnsweredStays(s3, p, fault, raises, fails);
    } else {
      PutIs(s3, p, fault);
      var s4 := Step(s3, Put(p, fault));
      if !fault.Fine? {
        AnsweredStays(s4, p, fault, raises, fails);
      } else {
        RecordedAlone(s, s4, request, raises, fails);
      }
    }
  }

  lemma RecordedAlone(s: System, s4: System, request: Request, raises: bool, fails: bool)
    requires request.payload != [] && |request.payload| <= MAX_FILE_BYTES && request.sniffed.Some?
    requires var id := BoundedId(request.message);
      && (id.Some? ==> FindRow(s.rows, request.business, id.value).None?)
      && s4 == System(s.rows, s.objects[ObjectKey(request.business, s.nextId) := request.payload], s.nextId + 1,
          s.uploads + [Upload(request.(message := id), Inserting(s.nextId))], s.lost)
    ensures
      var p := |s.uploads|;
      var s' := Step(Step(Step(s4, Insert(p, raises)), Cleanup(p, fails)), Reread(p));
      var key := ObjectKey(request.business, s.nextId);
      var id := BoundedId(request.message);
      var row := Row(s.nextId, request.business, id, request.sniffed.value, |request.payload|);
      s' == if !raises
        then s4.(rows := s.rows + [row],
                 uploads := s.uploads + [Upload(request.(message := id), Done(Stored(ReceiptOf(row))))])
        else s4.(objects := if fails then s4.objects else s4.objects - {key},
                 lost := if fails then s.lost + {key} else s.lost,
                 uploads := s.uploads + [Upload(request.(message := id), Done(Refused(NotRecorded)))])
  {
    hide Step, FindRow, BoundedId;
    var p := |s.uploads|;
    InsertIs(s4, p, raises);
    var s5 := Step(s4, Insert(p, raises));
    if raises {
      CleanupIs(s5, p, fails);
      AnsweredStays(Step(s5, Cleanup(p, fails)), p, Fine, raises, fails);
    } else {
      AnsweredStays(s5, p, Fine, raises, fails);
    }
  }

  /** A file without an id is always recorded anew. */
  lemma WithoutAnIdAlwaysAnew(s: System, request: Request)
    requires !HasId(request.message)
    requires 1 <= |request.payload| <= 10485760 && request.sniffed.Some?
    ensures
      var s' := Alone(s, request, Fine, false, false);
      && |s'.rows| == |s.rows| + 1 && s'.rows[|s.rows|].id == s.nextId && s'.rows[|s.rows|].message.None?
      && ObjectKey(request.business, s.nextId) in s'.objects
      && s'.uploads[|s.uploads|].phase == Done(Stored(Receipt(s.nextId, request.sniffed.value, |request.payload|)))
  {
    hide Alone;
    AnsweredAlone(s, request, Fine, false, false);
  }
}
