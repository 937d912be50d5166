/** Customer files: many concurrent uploads, each probing, reading, storing an
    object, inserting its row and cleaning up after itself
    (backend/app/api/internal_media.py). A run interleaves the steps of the
    uploads in any order, with any storage or database fault. */
module UploadProtocol {
  import opened Wrappers

  const MAX_FILE_BYTES: nat := 10 * 1024 * 1024
  const CHUNK: nat := 64 * 1024
  const ID_MAX: nat := 200

  newtype Byte = b: int | 0 <= b < 256

  /** An upload: its bytes, and what sniffing them yields if the type is allowed. */
  datatype Request = Request(business: string, message: Option<string>, payload: seq<Byte>, sniffed: Option<string>)

  datatype Refusal = TooLarge | EmptyFile | TypeNotAllowed | NotConfigured | Unavailable | NotRecorded | WinnerMissing
  datatype Receipt = Receipt(id: nat, mime: string, size: nat)
  datatype Outcome = Stored(receipt: Receipt) | Refused(reason: Refusal)

  datatype Phase =
    | Probing
    | Receiving
    | Storing
    | Inserting(id: nat)
    | Cleaning(id: nat, raised: bool)
    | Rereading
    | Done(outcome: Outcome)

  datatype Upload = Upload(request: Request, phase: Phase)

  /** A row of `lead_files`. */
  datatype Row = Row(id: nat, business: string, message: Option<string>, mime: string, size: nat)
  datatype ObjectKey = ObjectKey(business: string, id: nat)

  /** The table, the bucket, the next fresh id, every upload so far, and the
      objects whose deletion failed. */
  datatype System = System(
    rows: seq<Row>,
    objects: map<ObjectKey, seq<Byte>>,
    nextId: nat,
    uploads: seq<Upload>,
    lost: set<ObjectKey>)

  datatype PutFault = Fine | Unset | Down

  datatype Action =
    | Arrive(request: Request)
    | Probe(p: nat)
    | Receive(p: nat)
    | Put(p: nat, fault: PutFault)
    | Insert(p: nat, raises: bool)
    | Cleanup(p: nat, fails: bool)
    | Reread(p: nat)

  // --- the steps -----------------------------------------------------------------

  /** An empty id counts as none; a long one is cut. */
  function BoundedId(id: Option<string>): Option<string> {
    if id.None? || id.value == "" then None
    else if |id.value| > ID_MAX then Some(id.value[..ID_MAX])
    else id
  }

  /** `SELECT ... WHERE business_id = $1 AND message_id = $2`. */
  function FindRow(rows: seq<Row>, business: string, message: string): Option<Row> {
    if rows == [] then None
    else if rows[0].business == business && rows[0].message == Some(message) then Some(rows[0])
    else FindRow(rows[1..], business, message)
  }

  function ReceiptOf(row: Row): Receipt { Receipt(row.id, row.mime, row.size) }

  /** What reading and sniffing the body decides. */
  function Admission(request: Request): Option<Refusal> {
    if |request.payload| > MAX_FILE_BYTES then Some(TooLarge)
    else if request.payload == [] then Some(EmptyFile)
    else if request.sniffed.None? then Some(TypeNotAllowed)
    else None
  }

  function Moved(s: System, p: nat, phase: Phase): System
    requires p < |s.uploads|
  {
    s.(uploads := s.uploads[p := s.uploads[p].(phase := phase)])
  }

  function Answered(row: Option<Row>, otherwise: Phase): Phase {
    if row.Some? then Done(Stored(ReceiptOf(row.value))) else otherwise
  }

  function RowOf(request: Request, id: nat): Row {
    Row(id, request.business, request.message, request.sniffed.GetOr(""), |request.payload|)
  }

  /** One step of one upload; a step that is not next changes nothing. */
  function Step(s: System, a: Action): System {
    match a
    case Arrive(request) =>
      s.(uploads := s.uploads + [Upload(request.(message := BoundedId(request.message)), Probing)])
    case Probe(p) =>
      if p >= |s.uploads| || !s.uploads[p].phase.Probing? then s
      else
        var request := s.uploads[p].request;
        if request.message.None? then Moved(s, p, Receiving)
        else Moved(s, p, Answered(FindRow(s.rows, request.business, request.message.value), Receiving))
    case Receive(p) =>
      if p >= |s.uploads| || !s.uploads[p].phase.Receiving? then s
      else
        var refusal := Admission(s.uploads[p].request);
        Moved(s, p, if refusal.Some? then Done(Refused(refusal.value)) else Storing)
    case Put(p, fault) =>
      if p >= |s.uploads| || !s.uploads[p].phase.Storing? then s
      else
        var request := s.uploads[p].request;
        var next := s.(nextId := s.nextId + 1);
        if fault.Unset? then Moved(next, p, Done(Refused(NotConfigured)))
        else if fault.Down? then Moved(next, p, Done(Refused(Unavailable)))
        else Moved(next.(objects := s.objects[ObjectKey(request.business, s.nextId) := request.payload]), p,
          Inserting(s.nextId))
    case Insert(p, raises) =>
      if p >= |s.uploads| || !s.uploads[p].phase.Inserting? then s
      else
        var request := s.uploads[p].request;
        var id := s.uploads[p].phase.id;
        if raises then Moved(s, p, Cleaning(id, true))
        else if request.message.Some? && FindRow(s.rows, request.business, request.message.value).Some? then
          Moved(s, p, Cleaning(id, false))
        else Moved(s.(rows := s.rows + [RowOf(request, id)]), p, Done(Stored(ReceiptOf(RowOf(request, id)))))
    case Cleanup(p, fails) =>
      if p >= |s.uploads| || !s.uploads[p].phase.Cleaning? then s
      else
        var key := ObjectKey(s.uploads[p].request.business, s.uploads[p].phase.id);
        var next := if s.uploads[p].phase.raised then Done(Refused(NotRecorded)) else Rereading;
        Moved(if fails then s.(lost := s.lost + {key}) else s.(objects := s.objects - {key}), p, next)
    case Reread(p) =>
      if p >= |s.uploads| || !s.uploads[p].phase.Rereading? then s
      else
        var request := s.uploads[p].request;
        Moved(s, p, Answered(FindRow(s.rows, request.business, request.message.GetOr("")),
          Done(Refused(WinnerMissing))))
  }

  const EMPTY := System([], map[], 0, [], {})

  function Run(s: System, actions: seq<Action>): System {
    if actions == [] then s
    else Step(Run(s, actions[..|actions| - 1]), actions[|actions| - 1])
  }

  // --- the invariant ---------------------------------------------------------------

  /** The object an upload has stored and not yet given a row or cleaned up. */
  ghost function Held(u: Upload): Option<ObjectKey> {
    match u.phase
    case Inserting(id) => Some(ObjectKey(u.request.business, id))
    case Cleaning(id, _) => Some(ObjectKey(u.request.business, id))
    case _ => None
  }

  function KeyOf(row: Row): ObjectKey { ObjectKey(row.business, row.id) }

  ghost predicate RowsApart(rows: seq<Row>) {
    forall i, j :: 0 <= i < j < |rows| ==>
      rows[i].id != rows[j].id &&
      !(rows[i].message.Some? && rows[i].message == rows[j].message && rows[i].business == rows[j].business)
  }

  /** The row records an upload of this very content. */
  ghost predicate Wrote(u: Upload, row: Row, content: seq<Byte>) {
    && u.request.payload == content && row.size == |content|
    && u.request.business == row.business && u.request.message == row.message && u.request.sniffed == Some(row.mime)
  }

  ghost predicate Backed(s: System, row: Row) {
    && row.id < s.nextId && KeyOf(row) in s.objects && KeyOf(row) !in s.lost
    && exists p :: 0 <= p < |s.uploads| && Wrote(s.uploads[p], row, s.objects[KeyOf(row)])
  }

  ghost predicate HasRow(rows: seq<Row>, business: string, message: Option<string>, receipt: Receipt) {
    exists i :: 0 <= i < |rows| && rows[i].business == business && rows[i].message == message &&
      ReceiptOf(rows[i]) == receipt
  }

  ghost predicate Won(rows: seq<Row>, request: Request) {
    request.message.Some? && FindRow(rows, request.business, request.message.value).Some?
  }

  /** What is true of an upload in each phase. */
  ghost predicate InOrder(s: System, u: Upload) {
    match u.phase
    case Probing => true
    case Receiving => true
    case Storing => Admission(u.request).None?
    case Inserting(id) =>
      && Admission(u.request).None? && id < s.nextId
      && Held(u).value in s.objects && Held(u).value !in s.lost && s.objects[Held(u).value] == u.request.payload
    case Cleaning(id, raised) =>
      id < s.nextId && Held(u).value in s.objects && Held(u).value !in s.lost && (raised || Won(s.rows, u.request))
    case Rereading => Won(s.rows, u.request)
    case Done(Stored(receipt)) => HasRow(s.rows, u.request.business, u.request.message, receipt)
    case Done(Refused(reason)) => !reason.WinnerMissing?
  }

  ghost predicate RowKey(rows: seq<Row>, key: ObjectKey) { exists i :: 0 <= i < |rows| && KeyOf(rows[i]) == key }
  ghost predicate HeldKey(uploads: seq<Upload>, key: ObjectKey) {
    exists p :: 0 <= p < |uploads| && Held(uploads[p]) == Some(key)
  }

  ghost predicate RowsBacked(s: System) { forall i :: 0 <= i < |s.rows| ==> Backed(s, s.rows[i]) }
  ghost predicate AllInOrder(s: System) { forall p :: 0 <= p < |s.uploads| ==> InOrder(s, s.uploads[p]) }

  ghost predicate HoldersApart(uploads: seq<Upload>) {
    forall p, q :: 0 <= p < q < |uploads| && Held(uploads[p]).Some? && Held(uploads[q]).Some? ==>
      Held(uploads[p]).value.id != Held(uploads[q]).value.id
  }

  ghost predicate NoRowHeld(rows: seq<Row>, uploads: seq<Upload>) {
    forall i, p :: 0 <= i < |rows| && 0 <= p < |uploads| && Held(uploads[p]).Some? ==>
      rows[i].id != Held(uploads[p]).value.id
  }

  /** No object is forgotten. */
  ghost predicate Owned(s: System) {
    forall key :: key in s.objects ==> RowKey(s.rows, key) || HeldKey(s.uploads, key) || key in s.lost
  }

  ghost predicate KeysKnown(s: System) {
    (forall key :: key in s.objects ==> key.id < s.nextId) && (forall key :: key in s.lost ==> key in s.objects)
  }

  ghost predicate Inv(s: System) {
    && RowsApart(s.rows) && RowsBacked(s) && AllInOrder(s)
    && HoldersApart(s.uploads) && NoRowHeld(s.rows, s.uploads) && Owned(s) && KeysKnown(s)
  }

  // --- every step keeps it ------------------------------------------------------------

  lemma {:induction false} FoundRow(rows: seq<Row>, business: string, message: string)
    ensures FindRow(rows, business, message).Some? ==>
      HasRow(rows, business, Some(message), ReceiptOf(FindRow(rows, business, message).value))
    ensures FindRow(rows, business, message).None? ==>
      forall i :: 0 <= i < |rows| ==> !(rows[i].business == business && rows[i].message == Some(message))
  {
    if rows != [] {
      FoundRow(rows[1..], business, message);
      if rows[0].business == business && rows[0].message == Some(message) {
        assert ReceiptOf(rows[0]) == ReceiptOf(FindRow(rows, business, message).value);
      } else if FindRow(rows[1..], business, message).Some? {
        var i :| 0 <= i < |rows[1..]| && rows[1..][i].business == business && rows[1..][i].message == Some(message)
          && ReceiptOf(rows[1..][i]) == ReceiptOf(FindRow(rows, business, message).value);
        assert rows[i + 1] == rows[1..][i];
      } else {
        forall i | 0 <= i < |rows| ensures !(rows[i].business == business && rows[i].message == Some(message)) {
          assert i > 0 ==> rows[i] == rows[1..][i - 1];
        }
      }
    }
  }

  lemma {:induction false} FoundStays(rows: seq<Row>, row: Row, business: string, message: string)
    requires FindRow(rows, business, message).Some?
    ensures FindRow(rows + [row], business, message) == FindRow(rows, business, message)
  {
    assert (rows + [row])[1..] == rows[1..] + [row];
    if !(rows[0].business == business && rows[0].message == Some(message)) {
      FoundStays(rows[1..], row, business, message);
    }
  }

  /** A step that only moves an upload to a phase that holds nothing. */
  lemma MoveKeeps(s: System, p: nat, phase: Phase)
    requires Inv(s) && p < |s.uploads| && Held(s.uploads[p]).None?
    requires !phase.Inserting? && !phase.Cleaning? && InOrder(s, s.uploads[p].(phase := phase))
    ensures Inv(Moved(s, p, phase))
  {
    hide Backed, InOrder, RowKey, HeldKey, RowsApart;
    var s' := Moved(s, p, phase);
    forall i | 0 <= i < |s'.rows| ensures Backed(s', s'.rows[i]) { StillBacked(s, s', s.rows[i]); }
    forall q | 0 <= q < |s'.uploads| ensures InOrder(s', s'.uploads[q]) {
      SameOrder(s, s', if q == p then s.uploads[p].(phase := phase) else s.uploads[q]);
    }
    forall key | key in s'.objects ensures RowKey(s'.rows, key) || HeldKey(s'.uploads, key) || key in s'.lost {
      HeldMoves(s, s', p, key);
    }
  }

  lemma BackedMoves(s: System, s': System, row: Row)
    requires Backed(s, row) && |s.uploads| <= |s'.uploads| && s.nextId <= s'.nextId
    requires forall p :: 0 <= p < |s.uploads| ==> s'.uploads[p].request == s.uploads[p].request
    requires KeyOf(row) in s'.objects && KeyOf(row) !in s'.lost && s'.objects[KeyOf(row)] == s.objects[KeyOf(row)]
    ensures Backed(s', row)
  {
    var p :| 0 <= p < |s.uploads| && Wrote(s.uploads[p], row, s.objects[KeyOf(row)]);
    assert Wrote(s'.uploads[p], row, s'.objects[KeyOf(row)]);
  }

  /** What other uploads hold, they still hold. */
  lemma HeldMoves(s: System, s': System, p: nat, key: ObjectKey)
    requires p < |s.uploads| == |s'.uploads|
    requires forall q :: 0 <= q < |s.uploads| && q != p ==> s'.uploads[q] == s.uploads[q]
    requires Held(s.uploads[p]) != Some(key)
    ensures HeldKey(s.uploads, key) ==> HeldKey(s'.uploads, key)
  {
    if HeldKey(s.uploads, key) {
      var q :| 0 <= q < |s.uploads| && Held(s.uploads[q]) == Some(key);
      assert Held(s'.uploads[q]) == Some(key);
    }
  }

  lemma ArriveKeeps(s: System, request: Request)
    requires Inv(s)
    ensures Inv(Step(s, Arrive(request)))
  {
    hide Backed, InOrder, RowKey, HeldKey, RowsApart, BoundedId;
    var s' := Step(s, Arrive(request));
    forall i | 0 <= i < |s'.rows| ensures Backed(s', s'.rows[i]) { StillBacked(s, s', s.rows[i]); }
    forall q | 0 <= q < |s'.uploads| ensures InOrder(s', s'.uploads[q]) {
      if q < |s.uploads| { SameOrder(s, s', s.uploads[q]); } else { NewlyArrived(s', s'.uploads[q]); }
    }
    forall key | key in s'.objects ensures RowKey(s'.rows, key) || HeldKey(s'.uploads, key) || key in s'.lost {
      SameHeld(s.uploads, s'.uploads, key);
    }
  }

  lemma NewlyArrived(s: System, u: Upload)
    requires u.phase.Probing?
    ensures InOrder(s, u)
  {
  }

  lemma PutKeeps(s: System, p: nat, fault: PutFault)
    requires Inv(s) && p < |s.uploads| && s.uploads[p].phase.Storing?
    ensures Inv(Step(s, Put(p, fault)))
  {
    hide Wrote, RowKey, HeldKey, RowsApart, Admission;
    var s' := Step(s, Put(p, fault));
    assert InOrder(s, s.uploads[p]);
    forall i | 0 <= i < |s'.rows| ensures Backed(s', s'.rows[i]) {
      assert Backed(s, s.rows[i]);
      BackedMoves(s, s', s.rows[i]);
    }
    forall q | 0 <= q < |s'.uploads| ensures InOrder(s', s'.uploads[q]) {
      assert InOrder(s, s.uploads[q]);
    }
    forall i, q | 0 <= i < |s'.rows| && 0 <= q < |s'.uploads| && Held(s'.uploads[q]).Some?
      ensures s'.rows[i].id != Held(s'.uploads[q]).value.id
    {
      assert Backed(s, s.rows[i]);
    }
    forall key | key in s'.objects ensures RowKey(s'.rows, key) || HeldKey(s'.uploads, key) || key in s'.lost {
      if key in s.objects { HeldMoves(s, s', p, key); } else { HeldNow(s'.uploads, p, key); }
    }
  }

  lemma HeldNow(uploads: seq<Upload>, p: nat, key: ObjectKey)
    requires p < |uploads| && Held(uploads[p]) == Some(key)
    ensures HeldKey(uploads, key)
  {
  }

  lemma RowWins(s: System, p: nat)
    requires Inv(s) && p < |s.uploads| && s.uploads[p].phase.Inserting? && !Won(s.rows, s.uploads[p].request)
    ensures Inv(Step(s, Insert(p, false)))
  {
    hide Backed, InOrder, RowKey, HeldKey, Wrote;
    var s' := Step(s, Insert(p, false));
    var u := s.uploads[p];
    var row := RowOf(u.request, u.phase.id);
    assert s'.rows == s.rows + [row] && s'.rows[|s.rows|] == row;
    assert Held(u) == Some(KeyOf(row));
    assert RowsApart(s'.rows) by {
      if u.request.message.Some? { FoundRow(s.rows, u.request.business, u.request.message.value); }
    }
    assert InOrder(s, u);
    forall i | 0 <= i < |s'.rows| ensures Backed(s', s'.rows[i]) {
      if i < |s.rows| {
        StillBacked(s, s', s.rows[i]);
      } else {
        NewRowBacked(s, s', p);
      }
    }
    forall q | 0 <= q < |s'.uploads| ensures InOrder(s', s'.uploads[q]) {
      if q == p { NewReceipt(s', s'.uploads[p], row); } else { OrderGrows(s, s', s.uploads[q], row); }
    }
    forall key | key in s'.objects ensures RowKey(s'.rows, key) || HeldKey(s'.uploads, key) || key in s'.lost {
      RowKeyGrows(s.rows, row, key);
      if key != KeyOf(row) { HeldMoves(s, s', p, key); }
    }
  }

  lemma RowKeyGrows(rows: seq<Row>, row: Row, key: ObjectKey)
    ensures RowKey(rows, key) || key == KeyOf(row) ==> RowKey(rows + [row], key)
  {
    if RowKey(rows, key) {
      var i :| 0 <= i < |rows| && KeyOf(rows[i]) == key;
      assert KeyOf((rows + [row])[i]) == key;
    }
    assert KeyOf((rows + [row])[|rows|]) == KeyOf(row);
  }

  lemma NewReceipt(s: System, u: Upload, row: Row)
    requires s.rows != [] && s.rows[|s.rows| - 1] == row
    requires u.phase == Done(Stored(ReceiptOf(row))) && u.request.business == row.business &&
      u.request.message == row.message
    ensures InOrder(s, u)
  {
    assert ReceiptOf(s.rows[|s.rows| - 1]) == ReceiptOf(row);
  }

  lemma NewRowBacked(s: System, s': System, p: nat)
    requires p < |s.uploads| && s.uploads[p].phase.Inserting? && InOrder(s, s.uploads[p])
    requires s'.objects == s.objects && s'.lost == s.lost && s'.nextId == s.nextId
    requires p < |s'.uploads| && s'.uploads[p].request == s.uploads[p].request
    ensures Backed(s', RowOf(s.uploads[p].request, s.uploads[p].phase.id))
  {
    var row := RowOf(s.uploads[p].request, s.uploads[p].phase.id);
    assert Held(s.uploads[p]) == Some(KeyOf(row));
    assert Wrote(s'.uploads[p], row, s'.objects[KeyOf(row)]);
  }

  lemma StillBacked(s: System, s': System, row: Row)
    requires Backed(s, row) && |s.uploads| <= |s'.uploads| && s.nextId <= s'.nextId
    requires forall p :: 0 <= p < |s.uploads| ==> s'.uploads[p].request == s.uploads[p].request
    requires s'.objects == s.objects && s'.lost == s.lost
    ensures Backed(s', row)
  {
    BackedMoves(s, s', row);
  }

  /** A new row spoils no upload. */
  lemma OrderGrows(s: System, s': System, u: Upload, row: Row)
    requires InOrder(s, u) && s'.rows == s.rows + [row]
    requires s'.objects == s.objects && s'.lost == s.lost && s'.nextId == s.nextId
    ensures InOrder(s', u)
  {
    if u.request.message.Some? && FindRow(s.rows, u.request.business, u.request.message.value).Some? {
      FoundStays(s.rows, row, u.request.business, u.request.message.value);
    }
    if u.phase.Done? && u.phase.outcome.Stored? {
      var i :| 0 <= i < |s.rows| && s.rows[i].business == u.request.business && s.rows[i].message == u.request.message
        && ReceiptOf(s.rows[i]) == u.phase.outcome.receipt;
      assert s'.rows[i] == s.rows[i];
    }
  }

  /** The row was refused: the upload still holds its object. */
  lemma RowLoses(s: System, p: nat, raised: bool)
    requires Inv(s) && p < |s.uploads| && s.uploads[p].phase.Inserting?
    requires raised || Won(s.rows, s.uploads[p].request)
    ensures Inv(Moved(s, p, Cleaning(s.uploads[p].phase.id, raised)))
  {
    hide Backed, InOrder, RowKey, HeldKey, Won;
    var s' := Moved(s, p, Cleaning(s.uploads[p].phase.id, raised));
    assert forall q :: 0 <= q < |s.uploads| ==> Held(s'.uploads[q]) == Held(s.uploads[q]);
    forall i | 0 <= i < |s'.rows| ensures Backed(s', s'.rows[i]) { StillBacked(s, s', s.rows[i]); }
    assert InOrder(s, s.uploads[p]);
    forall q | 0 <= q < |s'.uploads| ensures InOrder(s', s'.uploads[q]) {
      if q == p { NowCleaning(s, s', s.uploads[p], raised); } else { SameOrder(s, s', s.uploads[q]); }
    }
    forall key | key in s'.objects ensures RowKey(s'.rows, key) || HeldKey(s'.uploads, key) || key in s'.lost {
      SameHeld(s.uploads, s'.uploads, key);
    }
  }

  lemma SameHeld(uploads: seq<Upload>, uploads': seq<Upload>, key: ObjectKey)
    requires |uploads| <= |uploads'| && forall q :: 0 <= q < |uploads| ==> Held(uploads'[q]) == Held(uploads[q])
    ensures HeldKey(uploads, key) ==> HeldKey(uploads', key)
  {
    if HeldKey(uploads, key) {
      var q :| 0 <= q < |uploads| && Held(uploads[q]) == Some(key);
      assert Held(uploads'[q]) == Some(key);
    }
  }

  lemma NowCleaning(s: System, s': System, u: Upload, raised: bool)
    requires InOrder(s, u) && u.phase.Inserting? && (raised || Won(s.rows, u.request))
    requires s'.rows == s.rows && s'.objects == s.objects && s'.lost == s.lost && s'.nextId == s.nextId
    ensures InOrder(s', u.(phase := Cleaning(u.phase.id, raised)))
  {
    assert Held(u.(phase := Cleaning(u.phase.id, raised))) == Held(u);
  }

  lemma SameOrder(s: System, s': System, u: Upload)
    requires InOrder(s, u)
    requires s'.rows == s.rows && s.nextId <= s'.nextId
    requires Held(u).Some? && Held(u).value in s.objects && Held(u).value !in s.lost ==>
      Held(u).value in s'.objects && Held(u).value !in s'.lost && s'.objects[Held(u).value] == s.objects[Held(u).value]
    ensures InOrder(s', u)
  {
  }

  lemma CleanupKeeps(s: System, p: nat, fails: bool)
    requires Inv(s) && p < |s.uploads| && s.uploads[p].phase.Cleaning?
    ensures Inv(Step(s, Cleanup(p, fails)))
  {
    hide Backed, InOrder, RowKey, HeldKey, Won;
    var s' := Step(s, Cleanup(p, fails));
    var gone := Held(s.uploads[p]).value;
    forall i | 0 <= i < |s'.rows| ensures Backed(s', s'.rows[i]) {
      assert KeyOf(s.rows[i]) != gone;
      BackedSurvives(s, s', s.rows[i], gone);
    }
    assert InOrder(s, s.uploads[p]);
    CleanerKnows(s, s.uploads[p]);
    forall q | 0 <= q < |s'.uploads| ensures InOrder(s', s'.uploads[q]) {
      if q == p {
        CleanedUp(s', s'.uploads[p]);
      } else {
        assert Held(s.uploads[q]).Some? ==> Held(s.uploads[q]).value != gone;
        SameOrder(s, s', s.uploads[q]);
      }
    }
    forall key | key in s'.objects ensures RowKey(s'.rows, key) || HeldKey(s'.uploads, key) || key in s'.lost {
      if key != gone { HeldMoves(s, s', p, key); }
    }
  }

  lemma CleanerKnows(s: System, u: Upload)
    requires InOrder(s, u) && u.phase.Cleaning?
    ensures Held(u).value in s.objects && Held(u).value !in s.lost && (u.phase.raised || Won(s.rows, u.request))
  {
  }

  lemma CleanedUp(s: System, u: Upload)
    requires u.phase == Done(Refused(NotRecorded)) || (u.phase.Rereading? && Won(s.rows, u.request))
    ensures InOrder(s, u)
  {
  }

  lemma BackedSurvives(s: System, s': System, row: Row, gone: ObjectKey)
    requires Backed(s, row) && KeyOf(row) != gone && |s'.uploads| == |s.uploads| && s'.nextId == s.nextId
    requires forall p :: 0 <= p < |s.uploads| ==> s'.uploads[p].request == s.uploads[p].request
    requires (s'.objects == s.objects && s'.lost == s.lost + {gone}) ||
      (s'.objects == s.objects - {gone} && s'.lost == s.lost)
    ensures Backed(s', row)
  {
    BackedMoves(s, s', row);
  }

  lemma StepKeeps(s: System, a: Action)
    requires Inv(s)
    ensures Inv(Step(s, a))
  {
    if a.Arrive? {
      ArriveKeeps(s, a.request);
    } else if a.p < |s.uploads| {
      MovesKeep(s, a);
    }
  }

  lemma MovesKeep(s: System, a: Action)
    requires Inv(s) && !a.Arrive? && a.p < |s.uploads|
    ensures Inv(Step(s, a))
  {
    hide RowsApart, Backed, HoldersApart, NoRowHeld, Owned, KeysKnown;
    var u := s.uploads[a.p];
    assert InOrder(s, u);
    if u.request.message.Some? { FoundRow(s.rows, u.request.business, u.request.message.value); }
    match a
    case Probe(p) => if u.phase.Probing? { MoveKeeps(s, p, Step(s, a).uploads[p].phase); }
    case Receive(p) => if u.phase.Receiving? { MoveKeeps(s, p, Step(s, a).uploads[p].phase); }
    case Put(p, fault) => if u.phase.Storing? { PutKeeps(s, p, fault); }
    case Insert(p, raises) =>
      if u.phase.Inserting? {
        if raises { RowLoses(s, p, true); }
        else if Won(s.rows, u.request) { RowLoses(s, p, false); }
        else { RowWins(s, p); }
      }
    case Cleanup(p, fails) => if u.phase.Cleaning? { CleanupKeeps(s, p, fails); }
    case Reread(p) => if u.phase.Rereading? { MoveKeeps(s, p, Step(s, a).uploads[p].phase); }
  }

  lemma {:induction false} RunKeeps(actions: seq<Action>)
    ensures Inv(Run(EMPTY, actions))
  {
    if actions != [] {
      RunKeeps(actions[..|actions| - 1]);
      StepKeeps(Run(EMPTY, actions[..|actions| - 1]), actions[|actions| - 1]);
    }
  }

  // --- what a customer, and the bucket's owner, can rely on -------------------------------

  /** Whatever the interleaving and the faults: a message has at most one row, and
      the row's object is there with the content of an upload of that message,
      of the row's size and type. */
  lemma OneRowPerMessage(actions: seq<Action>, i: nat, j: nat)
    requires i < |Run(EMPTY, actions).rows| && j < |Run(EMPTY, actions).rows|
    ensures
      var s := Run(EMPTY, actions);
      var (a, b) := (s.rows[i], s.rows[j]);
      && (a.message.Some? && a.message == b.message && a.business == b.business ==> i == j)
      && (a.id == b.id ==> i == j)
      && KeyOf(a) in s.objects && |s.objects[KeyOf(a)]| == a.size
      && exists p :: 0 <= p < |s.uploads| && Wrote(s.uploads[p], a, s.objects[KeyOf(a)])
  {
    RunKeeps(actions);
    var s := Run(EMPTY, actions);
    assert Backed(s, s.rows[i]);
  }

  /** Every successful response is the receipt of a row of that very message. */
  lemma ReceiptsAreRows(actions: seq<Action>, p: nat)
    requires p < |Run(EMPTY, actions).uploads|
    ensures
      var s := Run(EMPTY, actions);
      var u := s.uploads[p];
      && (u.phase.Done? && u.phase.outcome.Stored? ==>
        HasRow(s.rows, u.request.business, u.request.message, u.phase.outcome.receipt))
      && u.phase != Done(Refused(WinnerMissing))
  {
    RunKeeps(actions);
    assert InOrder(Run(EMPTY, actions), Run(EMPTY, actions).uploads[p]);
  }

  /** All successful uploads of one message are told the same file. */
  lemma ReceiptsAgree(actions: seq<Action>, p: nat, q: nat)
    requires p < |Run(EMPTY, actions).uploads| && q < |Run(EMPTY, actions).uploads|
    ensures
      var (u, v) := (Run(EMPTY, actions).uploads[p], Run(EMPTY, actions).uploads[q]);
      u.request.message.Some? && u.request.message == v.request.message && u.request.business == v.request.business &&
      u.phase.Done? && u.phase.outcome.Stored? && v.phase.Done? && v.phase.outcome.Stored? ==>
        u.phase.outcome == v.phase.outcome
  {
    var s := Run(EMPTY, actions);
    RunKeeps(actions);
    ReceiptsAreRows(actions, p);
    ReceiptsAreRows(actions, q);
  }

  /** Nothing in the bucket is forgotten: an object has a row, or an upload is
      still at work on it, or its deletion failed; and never two of the three. */
  lemma EveryObjectIsAccountedFor(actions: seq<Action>, key: ObjectKey)
    ensures
      var s := Run(EMPTY, actions);
      && (key in s.objects <==> RowKey(s.rows, key) || HeldKey(s.uploads, key) || key in s.lost)
      && !(RowKey(s.rows, key) && HeldKey(s.uploads, key)) && !(RowKey(s.rows, key) && key in s.lost)
      && !(HeldKey(s.uploads, key) && key in s.lost)
  {
    RunKeeps(actions);
    var s := Run(EMPTY, actions);
    if RowKey(s.rows, key) {
      var i :| 0 <= i < |s.rows| && KeyOf(s.rows[i]) == key;
      assert Backed(s, s.rows[i]);
    }
    if HeldKey(s.uploads, key) {
      var p :| 0 <= p < |s.uploads| && Held(s.uploads[p]) == Some(key);
      assert InOrder(s, s.uploads[p]);
    }
  }

  /** Once every upload has answered, the bucket holds exactly the recorded files
      and the objects whose deletion failed. */
  lemma NoOrphansAtRest(actions: seq<Action>, key: ObjectKey)
    requires forall p :: 0 <= p < |Run(EMPTY, actions).uploads| ==> Run(EMPTY, actions).uploads[p].phase.Done?
    ensures
      var s := Run(EMPTY, actions);
      key in s.objects <==> RowKey(s.rows, key) || key in s.lost
  {
    EveryObjectIsAccountedFor(actions, key);
  }

  /** A recorded file stays as it is: no later step changes a row or its object. */
  lemma RecordedFilesStay(s: System, a: Action, i: nat)
    requires Inv(s) && i < |s.rows|
    ensures
      var s' := Step(s, a);
      i < |s'.rows| && s'.rows[i] == s.rows[i] && KeyOf(s.rows[i]) in s'.objects &&
      s'.objects[KeyOf(s.rows[i])] == s.objects[KeyOf(s.rows[i])]
  {
    hide InOrder, RowsApart, FindRow, RowKey, HeldKey, Won, Wrote, Owned;
    assert Backed(s, s.rows[i]);
    if !a.Arrive? && a.p < |s.uploads| {
      var held := Held(s.uploads[a.p]);
      assert held.Some? ==> held.value.id != s.rows[i].id;
    }
  }

  /** Steps an upload still has to take. */
  ghost function Rank(phase: Phase): nat {
    match phase
    case Probing => 6
    case Receiving => 5
    case Storing => 4
    case Inserting(_) => 3
    case Cleaning(_, _) => 2
    case Rereading => 1
    case Done(_) => 0
  }

  ghost function NextAction(s: System, p: nat, fault: PutFault, raises: bool, fails: bool): Action
    requires p < |s.uploads|
  {
    match s.uploads[p].phase
    case Receiving => Receive(p)
    case Storing => Put(p, fault)
    case Inserting(_) => Insert(p, raises)
    case Cleaning(_, _) => Cleanup(p, fails)
    case Rereading => Reread(p)
    case _ => Probe(p)
  }

  /** No upload can be blocked: whatever fails, its own next step takes it closer
      to its answer. */
  lemma NoUploadIsBlocked(s: System, p: nat, fault: PutFault, raises: bool, fails: bool)
    requires p < |s.uploads| && !s.uploads[p].phase.Done?
    ensures
      var s' := Step(s, NextAction(s, p, fault, raises, fails));
      |s'.uploads| == |s.uploads| && Rank(s'.uploads[p].phase) < Rank(s.uploads[p].phase)
  {
    hide FindRow, BoundedId;
  }

  /** No upload's step moves another upload. */
  lemma OthersStayPut(s: System, p: nat, other: Action)
    requires p < |s.uploads| && (other.Arrive? || other.p != p)
    ensures |Step(s, other).uploads| >= |s.uploads| && Step(s, other).uploads[p] == s.uploads[p]
  {
    hide FindRow, BoundedId;
  }

  /** The steps of a run that moved this upload. */
  ghost function Moves(s: System, actions: seq<Action>, p: nat): nat
    requires p < |s.uploads|
  {
    if actions == [] then 0
    else
      var front := actions[..|actions| - 1];
      UploadsStay(s, front);
      UploadsStay(s, actions);
      Moves(s, front, p) + (if Run(s, actions).uploads[p] != Run(s, front).uploads[p] then 1 else 0)
  }

  lemma {:induction false} UploadsStay(s: System, actions: seq<Action>)
    ensures |Run(s, actions).uploads| >= |s.uploads|
  {
    hide Step;
    if actions != [] {
      UploadsStay(s, actions[..|actions| - 1]);
      StepKeepsUploads(Run(s, actions[..|actions| - 1]), actions[|actions| - 1]);
    }
  }

  lemma StepKeepsUploads(s: System, a: Action)
    ensures |Step(s, a).uploads| >= |s.uploads|
  {
    hide FindRow, BoundedId;
  }

  /** A step that moves an upload is its own, and takes it closer to its answer. */
  lemma MovingIsProgress(s: System, p: nat, a: Action)
    requires p < |s.uploads|
    ensures
      var s' := Step(s, a);
      |s'.uploads| >= |s.uploads| &&
      (s'.uploads[p] == s.uploads[p] || Rank(s'.uploads[p].phase) < Rank(s.uploads[p].phase))
  {
    hide FindRow, BoundedId;
    if a.Arrive? || a.p != p { OthersStayPut(s, p, a); }
  }

  /** Whatever the interleaving and the faults, an upload moves at most six times
      from its arrival to its answer, and then no more. */
  lemma {:induction false} SixStepsAtMost(s: System, actions: seq<Action>, p: nat)
    requires p < |s.uploads|
    ensures |Run(s, actions).uploads| >= |s.uploads|
    ensures Moves(s, actions, p) + Rank(Run(s, actions).uploads[p].phase) <= Rank(s.uploads[p].phase) <= 6
  {
    hide Step;
    UploadsStay(s, actions);
    if actions != [] {
      SixStepsAtMost(s, actions[..|actions| - 1], p);
      MovingIsProgress(Run(s, actions[..|actions| - 1]), p, actions[|actions| - 1]);
    }
  }
}
