/** The upload endpoint itself: one request from its body to its answer, proved
    to take exactly the steps of UploadProtocol
    (backend/app/api/internal_media.py). */
module MediaDoor {
  import opened Wrappers
  import opened UploadProtocol

  /** The spooled body of a request. */
  class Body {
    const data: seq<Byte>
    var pos: nat

    constructor (data: seq<Byte>)
      ensures this.data == data && pos == 0
    {
      this.data, pos := data, 0;
    }

    method Read(n: nat) returns (chunk: seq<Byte>)
      requires pos <= |data|
      modifies this
      ensures pos == if old(pos) + n <= |data| then old(pos) + n else |data|
      ensures chunk == data[old(pos)..pos]
    {
      var next := if pos + n <= |data| then pos + n else |data|;
      chunk := data[pos..next];
      pos := next;
    }
  }

  datatype ReadResult = Payload(bytes: seq<Byte>) | Refusal(reason: Refusal)

  function Joined(chunks: seq<seq<Byte>>): seq<Byte> {
    if chunks == [] then [] else Joined(chunks[..|chunks| - 1]) + chunks[|chunks| - 1]
  }

  /** The whole body, or a refusal if it is empty or over the cap; an oversized
      body is given up at the first chunk past the cap. */
  method ReadCapped(upload: Body) returns (r: ReadResult)
    requires upload.pos == 0
    modifies upload
    ensures r == if |upload.data| > MAX_FILE_BYTES then Refusal(TooLarge)
                 else if upload.data == [] then Refusal(EmptyFile)
                 else Payload(upload.data)
    ensures upload.pos <= MAX_FILE_BYTES + CHUNK
  {
    var chunks: seq<seq<Byte>> := [];
    var total := 0;
    while true
      invariant upload.pos == total <= |upload.data| && total <= MAX_FILE_BYTES
      invariant Joined(chunks) == upload.data[..total]
      decreases |upload.data| - total
    {
      var chunk := upload.Read(CHUNK);
      if chunk == [] { break; }
      total := total + |chunk|;
      if total > MAX_FILE_BYTES {
        return Refusal(TooLarge);
      }
      assert (chunks + [chunk])[..|chunks|] == chunks;
      chunks := chunks + [chunk];
    }
    if total == 0 {
      return Refusal(EmptyFile);
    }
    return Payload(Joined(chunks));
  }

  /** One upload served from arrival to answer with no other in between. */
  function Alone(s: System, request: Request, fault: PutFault, raises: bool, fails: bool): System {
    var p := |s.uploads|;
    var admitted := Step(Step(Step(s, Arrive(request)), Probe(p)), Receive(p));
    Step(Step(Step(Step(admitted, Put(p, fault)), Insert(p, raises)), Cleanup(p, fails)), Reread(p))
  }

  /** An answered upload takes no further step. */
  lemma AnsweredStays(s: System, p: nat, fault: PutFault, raises: bool, fails: bool)
    requires p < |s.uploads| && s.uploads[p].phase.Done?
    ensures Step(s, Receive(p)) == s && Step(s, Put(p, fault)) == s && Step(s, Insert(p, raises)) == s
    ensures Step(s, Cleanup(p, fails)) == s && Step(s, Reread(p)) == s
  {
  }

  // --- each step when it is next ----------------------------------------------------

  lemma ArriveIs(s: System, request: Request)
    ensures Step(s, Arrive(request)) == s.(uploads := s.uploads +
      [Upload(request.(message := BoundedId(request.message)), Probing)])
  {
    hide BoundedId;
  }

  lemma ProbeIs(s: System, p: nat)
    requires p < |s.uploads| && s.uploads[p].phase.Probing?
    ensures
      var request := s.uploads[p].request;
      Step(s, Probe(p)) == Moved(s, p,
        if request.message.None? then Receiving
        else Answered(FindRow(s.rows, request.business, request.message.value), Receiving))
  {
    hide FindRow;
  }

  lemma ReceiveIs(s: System, p: nat)
    requires p < |s.uploads| && s.uploads[p].phase.Receiving?
    ensures Step(s, Receive(p)) == Moved(s, p,
      if Admission(s.uploads[p].request).Some? then Done(Refused(Admission(s.uploads[p].request).value)) else Storing)
  {
  }

  lemma PutIs(s: System, p: nat, fault: PutFault)
    requires p < |s.uploads| && s.uploads[p].phase.Storing?
    ensures
      var request := s.uploads[p].request;
      Step(s, Put(p, fault)) ==
        if fault.Fine? then
          Moved(s.(nextId := s.nextId + 1,
                   objects := s.objects[ObjectKey(request.business, s.nextId) := request.payload]), p,
                Inserting(s.nextId))
        else Moved(s.(nextId := s.nextId + 1), p, Done(Refused(if fault.Unset? then NotConfigured else Unavailable)))
  {
  }

  lemma InsertIs(s: System, p: nat, raises: bool)
    requires p < |s.uploads| && s.uploads[p].phase.Inserting?
    ensures
      var (request, id) := (s.uploads[p].request, s.uploads[p].phase.id);
      Step(s, Insert(p, raises)) ==
        if raises then Moved(s, p, Cleaning(id, true))
        else if request.message.Some? && FindRow(s.rows, request.business, request.message.value).Some? then
          Moved(s, p, Cleaning(id, false))
        else Moved(s.(rows := s.rows + [RowOf(request, id)]), p, Done(Stored(ReceiptOf(RowOf(request, id)))))
  {
    hide FindRow;
  }

  lemma CleanupIs(s: System, p: nat, fails: bool)
    requires p < |s.uploads| && s.uploads[p].phase.Cleaning?
    ensures
      var key := ObjectKey(s.uploads[p].request.business, s.uploads[p].phase.id);
      Step(s, Cleanup(p, fails)) ==
        Moved(if fails then s.(lost := s.lost + {key}) else s.(objects := s.objects - {key}), p,
              if s.uploads[p].phase.raised then Done(Refused(NotRecorded)) else Rereading)
  {
  }

  lemma RereadIs(s: System, p: nat)
    requires p < |s.uploads| && s.uploads[p].phase.Rereading?
    ensures
      var request := s.uploads[p].request;
      Step(s, Reread(p)) == Moved(s, p, Answered(FindRow(s.rows, request.business, request.message.GetOr("")),
        Done(Refused(WinnerMissing))))
  {
    hide FindRow;
  }

  class Door {
    var rows: seq<Row>
    var objects: map<ObjectKey, seq<Byte>>
    var nextId: nat

    constructor ()
      ensures rows == [] && objects == map[] && nextId == 0
    {
      rows, objects, nextId := [], map[], 0;
    }

    /** The whole system, given the uploads served so far and the lost objects. */
    ghost function Snapshot(uploads: seq<Upload>, lost: set<ObjectKey>): System
      reads this
    {
      System(rows, objects, nextId, uploads, lost)
    }

    method PutEncrypted(business: string, id: nat, payload: seq<Byte>)
      modifies this`objects
      ensures objects == old(objects)[ObjectKey(business, id) := payload]
    {
      objects := objects[ObjectKey(business, id) := payload];
    }

    /** `sniffed` is what sniffing the head yields; the faults say which calls fail. */
    method UploadMedia(
      business: string, message: Option<string>, upload: Body, sniffed: Option<string>,
      fault: PutFault, raises: bool, fails: bool,
      ghost uploads: seq<Upload>, ghost lost: set<ObjectKey>) returns (r: Outcome)
      requires upload.pos == 0
      modifies this, upload
      ensures
        var s' := Alone(old(Snapshot(uploads, lost)), Request(business, message, upload.data, sniffed), fault,
          raises, fails);
        && rows == s'.rows && objects == s'.objects && nextId == s'.nextId
        && s'.uploads == uploads + [Upload(Request(business, BoundedId(message), upload.data, sniffed), Done(r))]
    {
      hide BoundedId, FindRow, Step;
      ghost var p := |uploads|;
      ghost var s := Snapshot(uploads, lost);
      ArriveIs(s, Request(business, message, upload.data, sniffed));
      s := Step(s, Arrive(Request(business, message, upload.data, sniffed)));
      var id := BoundedId(message);
      ProbeIs(s, p);
      s := Step(s, Probe(p));
      if id.Some? {
        var existing := FindRow(rows, business, id.value);
        if existing.Some? {
          AnsweredStays(s, p, fault, raises, fails);
          return Stored(ReceiptOf(existing.value));
        }
      }
      var body := ReadCapped(upload);
      ReceiveIs(s, p);
      s := Step(s, Receive(p));
      if body.Refusal? {
        AnsweredStays(s, p, fault, raises, fails);
        return Refused(body.reason);
      }
      if sniffed.None? {
        AnsweredStays(s, p, fault, raises, fails);
        return Refused(TypeNotAllowed);
      }
      r := Store(business, id, body.bytes, sniffed.value, fault, raises, fails, s, p);
    }

    /** Store the object and record it, cleaning up if that fails. */
    method Store(
      business: string, id: Option<string>, payload: seq<Byte>, mime: string,
      fault: PutFault, raises: bool, fails: bool, ghost s: System, ghost p: nat) returns (r: Outcome)
      requires s == Snapshot(s.uploads, s.lost)
      requires p < |s.uploads| && s.uploads[p] == Upload(Request(business, id, payload, Some(mime)), Storing)
      modifies this
      ensures
        var s' := Step(Step(Step(Step(s, Put(p, fault)), Insert(p, raises)), Cleanup(p, fails)), Reread(p));
        && rows == s'.rows && objects == s'.objects && nextId == s'.nextId
        && s'.uploads == s.uploads[p := s.uploads[p].(phase := Done(r))]
    {
      hide FindRow, Step;
      var fileId := nextId;
      nextId := nextId + 1;
      PutIs(s, p, fault);
      ghost var s1 := Step(s, Put(p, fault));
      if !fault.Fine? {
        AnsweredStays(s1, p, fault, raises, fails);
        return Refused(if fault.Unset? then NotConfigured else Unavailable);
      }
      PutEncrypted(business, fileId, payload);
      InsertIs(s1, p, raises);
      ghost var s2 := Step(s1, Insert(p, raises));
      if raises {
        if !fails { objects := objects - {ObjectKey(business, fileId)}; }
        CleanupIs(s2, p, fails);
        AnsweredStays(Step(s2, Cleanup(p, fails)), p, fault, raises, fails);
        return Refused(NotRecorded);
      }
      var clash := if id.Some? then FindRow(rows, business, id.value) else None;
      if clash.None? {
        rows := rows + [Row(fileId, business, id, mime, |payload|)];
        AnsweredStays(s2, p, fault, raises, fails);
        return Stored(Receipt(fileId, mime, |payload|));
      }
      if !fails { objects := objects - {ObjectKey(business, fileId)}; }
      CleanupIs(s2, p, fails);
      RereadIs(Step(s2, Cleanup(p, fails)), p);
      var winner := FindRow(rows, business, id.GetOr(""));
      if winner.None? {
        return Refused(WinnerMissing);
      }
      return Stored(ReceiptOf(winner.value));
    }
  }

  /** Serving one upload after any run is itself a run, so everything proved of
      runs holds of it. */
  lemma AloneIsARun(actions: seq<Action>, request: Request, fault: PutFault, raises: bool, fails: bool)
    ensures
      var s := Run(EMPTY, actions);
      var p := |s.uploads|;
      Alone(s, request, fault, raises, fails)
        == Run(EMPTY, actions + [Arrive(request), Probe(p), Receive(p), Put(p, fault), Insert(p, raises),
          Cleanup(p, fails), Reread(p)])
  {
    hide Step, Run;
    var s := Run(EMPTY, actions);
    var p := |s.uploads|;
    OneMoreStep(actions, Arrive(request));
    var a1 := actions + [Arrive(request)];
    OneMoreStep(a1, Probe(p));
    var a2 := a1 + [Probe(p)];
    OneMoreStep(a2, Receive(p));
    var a3 := a2 + [Receive(p)];
    OneMoreStep(a3, Put(p, fault));
    var a4 := a3 + [Put(p, fault)];
    OneMoreStep(a4, Insert(p, raises));
    var a5 := a4 + [Insert(p, raises)];
    OneMoreStep(a5, Cleanup(p, fails));
    var a6 := a5 + [Cleanup(p, fails)];
    OneMoreStep(a6, Reread(p));
    assert a6 + [Reread(p)]
      == actions + [Arrive(request), Probe(p), Receive(p), Put(p, fault), Insert(p, raises), Cleanup(p, fails),
        Reread(p)];
  }

  lemma OneMoreStep(actions: seq<Action>, a: Action)
    ensures Run(EMPTY, actions + [a]) == Step(Run(EMPTY, actions), a)
  {
    assert (actions + [a])[..|actions|] == actions;
  }

  /** A retry of a recorded message is answered with the same receipt and leaves
      the table and the bucket alone, whatever body it brings. */
  lemma RetryIsAnsweredFromTheRow(s: System, request: Request, fault: PutFault, raises: bool, fails: bool, row: Row)
    requires Inv(s) && row in s.rows && row.business == request.business
    requires row.message.Some? && row.message == BoundedId(request.message)
    ensures
      var s' := Alone(s, request, fault, raises, fails);
      s' == s.(uploads := s.uploads + [Upload(request.(message := BoundedId(request.message)),
        Done(Stored(ReceiptOf(row))))])
  {
    hide BoundedId, FindRow, Step, Inv, RowsApart;
    TheRowIsFound(s, row);
    var p := |s.uploads|;
    ArriveIs(s, request);
    ProbeIs(Step(s, Arrive(request)), p);
    AnsweredStays(Step(Step(s, Arrive(request)), Probe(p)), p, fault, raises, fails);
  }

  lemma TheRowIsFound(s: System, row: Row)
    requires Inv(s) && row in s.rows && row.message.Some?
    ensures FindRow(s.rows, row.business, row.message.value).Some?
    ensures ReceiptOf(FindRow(s.rows, row.business, row.message.value).value) == ReceiptOf(row)
  {
    hide FindRow;
    FoundRow(s.rows, row.business, row.message.value);
    var i :| 0 <= i < |s.rows| && s.rows[i] == row;
    var found := FindRow(s.rows, row.business, row.message.value);
    var j :| 0 <= j < |s.rows| && s.rows[j].business == row.business && s.rows[j].message == row.message
      && ReceiptOf(s.rows[j]) == ReceiptOf(found.value);
    assert j == i;
  }
}
