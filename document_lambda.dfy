/**
 * The document Lambda of the backend: `POST /documents` stores a base64-encoded
 * PDF in S3 and its metadata in DynamoDB, `GET /documents/{user_id}/{document_type}`
 * reads it back. S3 is a map from object key to bytes, the table a set of
 * metadata items; a store call that raises a `ClientError` is a failure flag. JSON
 * decoding of the request body is an input (its parse result), the clock reading
 * is an input, and logging is left out.
 */
module DocumentLambda {
  import opened Wrappers
  import opened Strings
  import opened Base64

  // ---------------------------------------------------------------------------
  // Requests and responses

  /**
   * `json.loads(event.get("body", "{}"))` as far as the upload looks at it: not JSON,
   * JSON that is not an object (`.get` raises), or an object with the three string
   * fields, `None` when a field is missing or `null`. A missing body parses as `{}`.
   */
  datatype Payload = NotJson | NotObject | Object(userId: Option<string>, documentType: Option<string>, fileContent: Option<string>)

  datatype Event = Event(httpMethod: Option<string>, path: Option<string>, body: Payload)

  /** The `body` of a response, before `json.dumps`. */
  datatype Body =
    | Message(text: string)
    | Uploaded(message: string, s3Key: string)
    | Document(userId: string, documentType: string, uploadedAt: string, fileContentBase64: string)

  datatype Response = Response(statusCode: int, body: Body)

  /** An exception that escapes `handler`: `path.startswith` on a missing path. */
  datatype Unhandled = AttributeError

  const NotFound := "Not Found"
  const MalformedFields := "Payload malformado: user_id, document_type y file_content son requeridos."
  const MalformedJson := "Payload malformado: El cuerpo de la solicitud no es un JSON v\U{00E1}lido."
  const InvalidBase64 := "Payload inv\U{00E1}lido: file_content no es un base64 v\U{00E1}lido."
  const S3PutError := "Error al guardar el documento en S3."
  const DynamoPutError := "Error al guardar la metadata en DynamoDB."
  const UploadedMessage := "Documento subido exitosamente"
  const InternalError := "Error interno del servidor."
  const InvalidPath := "Ruta inv\U{00E1}lida. Formato esperado: /documents/{user_id}/{document_type}"
  const DocumentNotFound := "Documento no encontrado."
  const S3ObjectMissing := "Archivo en S3 no encontrado, pero la metadata existe."
  const S3GetError := "Error al recuperar el documento de S3."

  function Reply(status: int, text: string): Response {
    Response(status, Message(text))
  }

  // ---------------------------------------------------------------------------
  // Stores

  /** A metadata item; the table's primary key is (`user_id`, `uploaded_at`). */
  datatype Metadata = Metadata(userId: string, documentType: string, s3Key: string, uploadedAt: string)

  datatype Stores = Stores(s3: map<string, seq<Byte>>, table: set<Metadata>)

  /**
   * Which store calls raise a `ClientError`: the object write and the item write
   * of the upload, the object read of the get (an error other than `NoSuchKey`;
   * a missing key is an absent map entry) and the query of the get.
   */
  datatype Faults = Faults(s3Put: bool, dynamoPut: bool, s3Get: bool, dynamoQuery: bool)

  const NoFaults := Faults(false, false, false, false)

  predicate SameKey(a: Metadata, b: Metadata) {
    a.userId == b.userId && a.uploadedAt == b.uploadedAt
  }

  /** `put_item`: the item replaces any item with the same primary key. */
  function PutItem(table: set<Metadata>, item: Metadata): (t: set<Metadata>)
    ensures item in t
    ensures forall m :: m in t && m != item ==> m in table && !SameKey(m, item)
    ensures forall m :: m in table && !SameKey(m, item) ==> m in t
  {
    (set m | m in table && !SameKey(m, item)) + {item}
  }

  /** The table's primary key identifies at most one item. */
  predicate KeysUnique(table: set<Metadata>) {
    forall a, b :: a in table && b in table && SameKey(a, b) ==> a == b
  }

  /**
   * `put_item` keeps the primary key a key: the new item is the only one under its
   * key, the table grows by at most that item, and writing it again changes nothing.
   */
  lemma PutItemKeepsKeysUnique(table: set<Metadata>, item: Metadata)
    requires KeysUnique(table)
    ensures KeysUnique(PutItem(table, item))
    ensures forall m :: m in PutItem(table, item) && SameKey(m, item) ==> m == item
    ensures |PutItem(table, item)| <= |table| + 1
    ensures PutItem(PutItem(table, item), item) == PutItem(table, item)
  {
    var t := PutItem(table, item);
    SubsetNoLarger(t - {item}, table);
    assert t == (t - {item}) + {item};
    var t2 := PutItem(t, item);
    assert forall m :: m in t2 <==> m in t;
  }

  lemma {:induction false} SubsetNoLarger<T>(a: set<T>, b: set<T>)
    requires a <= b
    ensures |a| <= |b|
    decreases |a|
  {
    if a != {} {
      var x :| x in a;
      SubsetNoLarger(a - {x}, b - {x});
    }
  }

  /** The items a query on the `DocumentTypeIndex` for this user and type can return. */
  function Matching(table: set<Metadata>, userId: string, documentType: string): (ms: set<Metadata>)
    ensures forall m :: m in ms <==> m in table && m.userId == userId && m.documentType == documentType
  {
    set m | m in table && m.userId == userId && m.documentType == documentType
  }

  /**
   * After `put_item`, a query for the item's user and type finds the item and every
   * earlier match under another key; a query for another user or type finds nothing new.
   */
  lemma MatchingAfterPut(table: set<Metadata>, item: Metadata, userId: string, documentType: string)
    ensures var after := Matching(PutItem(table, item), userId, documentType);
      var before := Matching(table, userId, documentType);
      && (userId == item.userId && documentType == item.documentType ==>
            item in after && after == (set m | m in before && !SameKey(m, item)) + {item})
      && (userId != item.userId || documentType != item.documentType ==> after <= before)
  {
    var after := Matching(PutItem(table, item), userId, documentType);
    var before := Matching(table, userId, documentType);
    if userId == item.userId && documentType == item.documentType {
      var expected := (set m | m in before && !SameKey(m, item)) + {item};
      assert forall m :: m in after <==> m in expected;
    }
  }

  // ---------------------------------------------------------------------------
  // Timestamps and object keys

  /** A UTC reading of `datetime.now`, to the second. */
  datatype DateTime = DateTime(year: nat, month: nat, day: nat, hour: nat, minute: nat, second: nat)

  predicate ValidDateTime(t: DateTime) {
    1 <= t.year <= 9999 && 1 <= t.month <= 12 && 1 <= t.day <= 31
    && t.hour < 24 && t.minute < 60 && t.second < 60
  }

  /** `YYYY-MM-DD`, the date part of an ISO 8601 rendering. */
  function IsoDate(t: DateTime): (s: string)
    ensures 'T' !in s
  {
    var s := Padded(t.year, 4) + "-" + Padded(t.month, 2) + "-" + Padded(t.day, 2);
    assert forall i :: 0 <= i < |s| ==> s[i] == '-' || IsDigit(s[i]);
    s
  }

  /** `isoformat(timespec="seconds").replace("+00:00", "Z")` of an aware UTC datetime. */
  function IsoTimestamp(t: DateTime): (s: string)
    ensures IsoDate(t) + "T" <= s && s[|s| - 1] == 'Z'
    ensures DatePart(s) == IsoDate(t)
  {
    var rest := Padded(t.hour, 2) + ":" + Padded(t.minute, 2) + ":" + Padded(t.second, 2) + "Z";
    var s := IsoDate(t) + "T" + rest;
    assert s == IsoDate(t) + ['T'] + rest;
    SplitAtSeparator(IsoDate(t), 'T', rest);
    s
  }

  /** `timestamp.split('T')[0]`. */
  function DatePart(timestamp: string): string {
    Split(timestamp, 'T')[0]
  }

  /** The key of the object: `{user_id}/{date}_{document_type}.pdf`. */
  function S3Key(userId: string, date: string, documentType: string): (k: string)
    ensures userId + "/" + date + "_" <= k
    ensures |k| == |userId| + |date| + |documentType| + 6 && k[|k| - 4..] == ".pdf"
    ensures k[|userId| + |date| + 2..|k| - 4] == documentType
  {
    userId + "/" + date + "_" + documentType + ".pdf"
  }

  /** Python's `%04d` renders a valid year in exactly four digits, month and day in two. */
  lemma IsoDateLength(t: DateTime)
    requires ValidDateTime(t)
    ensures |IsoDate(t)| == 10
  {
    PaddedFits(t.year, 4);
    PaddedFits(t.month, 2);
    PaddedFits(t.day, 2);
  }

  lemma {:induction false} DecimalLength(n: nat, width: nat)
    requires width >= 1 && n < Power10(width)
    ensures |NatToDecimal(n)| <= width
    decreases n
  {
    if n >= 10 {
      if width >= 2 {
        DecimalLength(n / 10, width - 1);
      } else {
        assert false;
      }
    }
  }

  function Power10(k: nat): (p: nat)
    ensures p >= 1
  {
    if k == 0 then 1 else 10 * Power10(k - 1)
  }

  lemma PaddedFits(n: nat, width: nat)
    requires width >= 1 && n < Power10(width)
    ensures |Padded(n, width)| == width
  {
    DecimalLength(n, width);
  }

  /** When the user id holds no `/`, it is the first path segment of the key. */
  lemma S3KeyUserSegment(userId: string, date: string, documentType: string)
    requires '/' !in userId
    ensures Split(S3Key(userId, date, documentType), '/')[0] == userId
  {
    var rest := date + "_" + documentType + ".pdf";
    assert S3Key(userId, date, documentType) == userId + ['/'] + rest;
    SplitAtSeparator(userId, '/', rest);
  }

  /** Uploads of one type by one user on one day share a key, whatever the time of day. */
  lemma SameDaySameKey(userId: string, documentType: string, t1: DateTime, t2: DateTime)
    requires t1.year == t2.year && t1.month == t2.month && t1.day == t2.day
    ensures S3Key(userId, DatePart(IsoTimestamp(t1)), documentType)
         == S3Key(userId, DatePart(IsoTimestamp(t2)), documentType)
  {
  }

  // ---------------------------------------------------------------------------
  // Routing

  datatype Route = ToUpload | ToGet | NoRoute | PathMissing

  /** `handler`: which branch an event takes. */
  function RouteOf(e: Event): (k: Route)
    ensures k == ToUpload <==> e.httpMethod == Some("POST") && e.path == Some("/documents")
    ensures k == ToGet <==> e.httpMethod == Some("GET") && e.path.Some? && "/documents/" <= e.path.value
    ensures k == PathMissing <==> e.httpMethod == Some("GET") && e.path.None?
  {
    if e.httpMethod == Some("POST") && e.path == Some("/documents") then ToUpload
    else if e.httpMethod == Some("GET") then
      if e.path.None? then PathMissing
      else if "/documents/" <= e.path.value then ToGet
      else NoRoute
    else NoRoute
  }

  /** The upload path itself is not a get path, and a get path is never `/documents`. */
  lemma RoutesDisjoint(e: Event)
    ensures e.path == Some("/documents") ==> RouteOf(e) != ToGet
  {
    if e.path == Some("/documents") {
      assert |"/documents"| < |"/documents/"|;
    }
  }

  // ---------------------------------------------------------------------------
  // Upload

  /** A response and the stores after it. */
  datatype Step = Step(response: Response, stores: Stores)

  /** `not all([user_id, document_type, file_content])`. */
  predicate MissingField(p: Payload)
    requires p.Object?
  {
    !Truthy(p.userId) || !Truthy(p.documentType) || !Truthy(p.fileContent)
  }

  /** `upload_document`: validate, decode, write the object, then the metadata. */
  function Upload(st: Stores, faults: Faults, payload: Payload, now: DateTime): (s: Step)
    ensures s.response.statusCode in {200, 400, 500}
    ensures s.response.statusCode == 200 <==> WellFormed(payload) && !faults.s3Put && !faults.dynamoPut
    ensures s.response.statusCode == 400 ==> s.stores == st
    ensures s.response.statusCode != 200 ==> s.stores.table == st.table
    ensures s.stores.s3 != st.s3 ==> WellFormed(payload) && !faults.s3Put
    ensures forall k :: k in s.stores.s3 ==> k in st.s3 || (WellFormed(payload) && k == UploadKey(payload, now))
  {
    match payload
    case NotJson => Step(Reply(400, MalformedJson), st)
    case NotObject => Step(Reply(500, InternalError), st)
    case Object(userId, documentType, fileContent) =>
      if MissingField(payload) then Step(Reply(400, MalformedFields), st)
      else match Decode(fileContent.value)
        case Failure(_) => Step(Reply(400, InvalidBase64), st)
        case Success(bytes) =>
          var timestamp := IsoTimestamp(now);
          var key := S3Key(userId.value, DatePart(timestamp), documentType.value);
          if faults.s3Put then Step(Reply(500, S3PutError), st)
          else
            var s3 := st.s3[key := bytes];
            if faults.dynamoPut then Step(Reply(500, DynamoPutError), Stores(s3, st.table))
            else
              var item := Metadata(userId.value, documentType.value, key, timestamp);
              Step(Response(200, Uploaded(UploadedMessage, key)), Stores(s3, PutItem(st.table, item)))
  }

  /** The key an upload of `payload` at `now` writes to, when it gets that far. */
  function UploadKey(payload: Payload, now: DateTime): string
    requires payload.Object? && !MissingField(payload)
  {
    S3Key(payload.userId.value, IsoDate(now), payload.documentType.value)
  }

  /** Every rejection of the request itself (status 400, or a body that is not an object) writes nothing. */
  lemma RejectedWritesNothing(st: Stores, faults: Faults, payload: Payload, now: DateTime)
    requires payload.NotJson? || payload.NotObject? || MissingField(payload) || Decode(payload.fileContent.value).Failure?
    ensures var s := Upload(st, faults, payload, now);
      s.stores == st
      && s.response.statusCode == (if payload.NotObject? then 500 else 400)
      && (payload.NotJson? ==> s.response == Reply(400, MalformedJson))
      && (payload.Object? && MissingField(payload) ==> s.response == Reply(400, MalformedFields))
      && (payload.Object? && !MissingField(payload) ==> s.response == Reply(400, InvalidBase64))
  {
  }

  /** A valid payload: the three fields are present and the content decodes. */
  predicate WellFormed(payload: Payload) {
    payload.Object? && !MissingField(payload) && Decode(payload.fileContent.value).Success?
  }

  function Content(payload: Payload): seq<Byte>
    requires WellFormed(payload)
  {
    Decode(payload.fileContent.value).value
  }

  /**
   * The writes of a valid upload: S3 first, then the table. An S3 failure writes
   * nothing; a table failure leaves the object in S3; success writes both and
   * answers with the key.
   */
  lemma UploadWrites(st: Stores, faults: Faults, payload: Payload, now: DateTime)
    requires WellFormed(payload)
    ensures var s := Upload(st, faults, payload, now);
      var key := UploadKey(payload, now);
      var item := Metadata(payload.userId.value, payload.documentType.value, key, IsoTimestamp(now));
      && (faults.s3Put ==> s == Step(Reply(500, S3PutError), st))
      && (!faults.s3Put ==> s.stores.s3 == st.s3[key := Content(payload)])
      && (!faults.s3Put && faults.dynamoPut ==> s.response == Reply(500, DynamoPutError) && s.stores.table == st.table)
      && (!faults.s3Put && !faults.dynamoPut ==>
            s.response == Response(200, Uploaded(UploadedMessage, key))
            && item in s.stores.table
            && s.stores.table - {item} <= st.table)
  {
  }

  /** A second upload of the same type by the same user on the same day replaces the stored bytes. */
  lemma SameDayOverwrites(st: Stores, p1: Payload, p2: Payload, t1: DateTime, t2: DateTime)
    requires WellFormed(p1) && WellFormed(p2)
    requires p1.userId == p2.userId && p1.documentType == p2.documentType
    requires t1.year == t2.year && t1.month == t2.month && t1.day == t2.day
    ensures var s := Upload(Upload(st, NoFaults, p1, t1).stores, NoFaults, p2, t2).stores;
      var key := UploadKey(p1, t1);
      key == UploadKey(p2, t2) && key in s.s3 && s.s3[key] == Content(p2)
  {
    UploadWrites(st, NoFaults, p1, t1);
    UploadWrites(Upload(st, NoFaults, p1, t1).stores, NoFaults, p2, t2);
  }

  // ---------------------------------------------------------------------------
  // Get

  /** `path.split("/")` and parts 2 and 3, when there are at least four parts. */
  function ParseDocumentPath(path: string): (r: Option<(string, string)>)
    ensures r.Some? <==> |Split(path, '/')| >= 4
  {
    var parts := Split(path, '/');
    if |parts| < 4 then None else Some((parts[2], parts[3]))
  }

  /** The path the frontend of the tests builds is read back as its user id and type. */
  lemma ParseBuiltPath(userId: string, documentType: string)
    requires '/' !in userId && '/' !in documentType
    ensures ParseDocumentPath("/documents/" + userId + "/" + documentType) == Some((userId, documentType))
  {
    BuiltPathSplits(userId, documentType);
  }

  /** `/documents/{u}/{t}` splits on `/` into `""`, `documents`, `u` and `t`. */
  lemma BuiltPathSplits(userId: string, documentType: string)
    requires '/' !in userId && '/' !in documentType
    ensures Split("/documents/" + userId + "/" + documentType, '/') == ["", "documents", userId, documentType]
  {
    var parts := ["", "documents", userId, documentType];
    assert '/' !in "documents";
    assert forall i :: 0 <= i < |parts| ==> '/' !in parts[i];
    SplitJoin(parts, '/');
    BuiltPathJoin(userId, documentType);
  }

  lemma BuiltPathJoin(userId: string, documentType: string)
    ensures Join(["", "documents", userId, documentType], '/') == "/documents/" + userId + "/" + documentType
  {
    JoinCons(userId, [documentType], '/');
    JoinCons("documents", [userId, documentType], '/');
    JoinCons("", ["documents", userId, documentType], '/');
    assert ["", "documents", userId, documentType] == [""] + ["documents", userId, documentType];
    var tail := userId + "/" + documentType;
    assert "" + "/" + ("documents" + "/" + tail) == "/documents/" + tail;
    assert "/documents/" + tail == "/documents/" + userId + "/" + documentType;
  }

  lemma JoinCons(head: string, rest: seq<string>, sep: char)
    requires |rest| >= 1
    ensures Join([head] + rest, sep) == head + [sep] + Join(rest, sep)
  {
    assert ([head] + rest)[1..] == rest;
  }

  /** Segments after the fourth part do not change what is read. */
  lemma ExtraSegmentsIgnored(path: string, extra: string)
    requires ParseDocumentPath(path).Some?
    ensures ParseDocumentPath(path + "/" + extra) == ParseDocumentPath(path)
  {
    var parts := Split(path, '/');
    var more := Split(extra, '/');
    JoinSplit(path, '/');
    JoinSplit(extra, '/');
    SplitPartsHaveNoSeparator(path, '/');
    SplitPartsHaveNoSeparator(extra, '/');
    JoinAppend(parts, more, '/');
    SplitJoin(parts + more, '/');
    assert Split(path + "/" + extra, '/') == parts + more;
  }

  lemma SplitPartsHaveNoSeparator(s: string, sep: char)
    ensures |Split(s, sep)| >= 1
    ensures forall i :: 0 <= i < |Split(s, sep)| ==> sep !in Split(s, sep)[i]
  {
  }

  lemma {:induction false} JoinAppend(a: seq<string>, b: seq<string>, sep: char)
    requires |a| >= 1 && |b| >= 1
    ensures Join(a + b, sep) == Join(a, sep) + [sep] + Join(b, sep)
    decreases |a|
  {
    if |a| == 1 {
      assert (a + b)[1..] == b;
    } else {
      JoinAppend(a[1..], b, sep);
      assert (a + b)[1..] == a[1..] + b;
    }
  }

  /** A path of fewer than four parts is refused before any store is read. */
  lemma ShortPathRefused(userId: string)
    requires '/' !in userId
    ensures ParseDocumentPath("/documents/" + userId) == None
  {
    var parts := ["", "documents", userId];
    assert forall i :: 0 <= i < |parts| ==> '/' !in parts[i];
    SplitJoin(parts, '/');
    assert Join(parts, '/') == "/documents/" + userId by {
      assert parts[1..] == ["documents", userId];
      assert parts[1..][1..] == [userId];
      assert Join(parts[1..], '/') == "documents" + "/" + userId;
    }
  }

  /** What the get answers once it has chosen a metadata item. */
  function Serve(s3: map<string, seq<Byte>>, faults: Faults, userId: string, documentType: string, m: Metadata): (r: Response)
    ensures r.statusCode in {200, 404, 500}
    ensures r.statusCode == 200 <==> !faults.s3Get && m.s3Key in s3
    ensures faults.s3Get ==> r == Reply(500, S3GetError)
    ensures !faults.s3Get && m.s3Key !in s3 ==> r == Reply(404, S3ObjectMissing)
    ensures r.statusCode == 200 ==>
      && r.body.Document? && r.body.uploadedAt == m.uploadedAt
      && r.body.userId == userId && r.body.documentType == documentType
      && Decode(r.body.fileContentBase64) == Success(s3[m.s3Key])
  {
    if faults.s3Get then Reply(500, S3GetError)
    else if m.s3Key !in s3 then Reply(404, S3ObjectMissing)
    else
      DecodeEncode(s3[m.s3Key]);
      Response(200, Document(userId, documentType, m.uploadedAt, Encode(s3[m.s3Key])))
  }

  /**
   * The answers `get_document` may give: the query with `Limit=1` returns some
   * matching item, and which one is left open.
   */
  predicate GetAllows(st: Stores, faults: Faults, path: string, r: Response)
    ensures GetAllows(st, faults, path, r) ==> r.statusCode in {200, 400, 404, 500}
    ensures GetAllows(st, faults, path, r) ==> (r.statusCode == 400 <==> ParseDocumentPath(path).None?)
    ensures GetAllows(st, faults, path, r) && r.statusCode == 200 ==>
      && !faults.dynamoQuery && !faults.s3Get && r.body.Document?
      && ParseDocumentPath(path) == Some((r.body.userId, r.body.documentType))
      && exists m :: m in Matching(st.table, r.body.userId, r.body.documentType)
           && m.uploadedAt == r.body.uploadedAt && m.s3Key in st.s3
           && Decode(r.body.fileContentBase64) == Success(st.s3[m.s3Key])
  {
    match ParseDocumentPath(path)
    case None => r == Reply(400, InvalidPath)
    case Some((userId, documentType)) =>
      if faults.dynamoQuery then r == Reply(500, InternalError)
      else if Matching(st.table, userId, documentType) == {} then r == Reply(404, DocumentNotFound)
      else exists m :: m in Matching(st.table, userId, documentType) && r == Serve(st.s3, faults, userId, documentType, m)
  }

  /**
   * Get after a successful upload, with no earlier item of that user and type:
   * the answer is 200 and carries base64 of exactly the uploaded bytes.
   */
  lemma GetAfterUpload(st: Stores, payload: Payload, now: DateTime, r: Response)
    requires WellFormed(payload)
    requires '/' !in payload.userId.value && '/' !in payload.documentType.value
    requires Matching(st.table, payload.userId.value, payload.documentType.value) == {}
    requires GetAllows(Upload(st, NoFaults, payload, now).stores, NoFaults,
                       "/documents/" + payload.userId.value + "/" + payload.documentType.value, r)
    ensures r.statusCode == 200 && r.body.Document?
    ensures r.body == Document(payload.userId.value, payload.documentType.value, IsoTimestamp(now), Encode(Content(payload)))
    ensures Decode(r.body.fileContentBase64) == Success(Content(payload))
  {
    var u, t := payload.userId.value, payload.documentType.value;
    var s := Upload(st, NoFaults, payload, now);
    var key := UploadKey(payload, now);
    var item := Metadata(u, t, key, IsoTimestamp(now));
    UploadWrites(st, NoFaults, payload, now);
    ParseBuiltPath(u, t);
    assert item in Matching(s.stores.table, u, t);
    assert Matching(s.stores.table, u, t) == {item};
    DecodeEncode(Content(payload));
  }

  /** A get that finds the metadata but not the object answers 404, not 500. */
  lemma GetWithObjectGone(st: Stores, path: string, userId: string, documentType: string, r: Response)
    requires ParseDocumentPath(path) == Some((userId, documentType))
    requires Matching(st.table, userId, documentType) != {}
    requires forall m :: m in Matching(st.table, userId, documentType) ==> m.s3Key !in st.s3
    requires GetAllows(st, NoFaults, path, r)
    ensures r == Reply(404, S3ObjectMissing)
  {
  }

  /**
   * Which failure gives which answer, for any stores: a failed query is a 500,
   * no matching metadata a 404, a failed object read a 500 of its own, and a
   * missing object under found metadata a 404 of its own.
   */
  lemma GetFailures(st: Stores, faults: Faults, path: string, userId: string, documentType: string, r: Response)
    requires ParseDocumentPath(path) == Some((userId, documentType))
    requires GetAllows(st, faults, path, r)
    ensures faults.dynamoQuery ==> r == Reply(500, InternalError)
    ensures !faults.dynamoQuery && Matching(st.table, userId, documentType) == {} ==>
      r == Reply(404, DocumentNotFound)
    ensures !faults.dynamoQuery && Matching(st.table, userId, documentType) != {} && faults.s3Get ==>
      r == Reply(500, S3GetError)
    ensures !faults.dynamoQuery && !faults.s3Get && r.statusCode == 404 ==>
      (r == Reply(404, DocumentNotFound) <==> Matching(st.table, userId, documentType) == {})
    ensures !faults.dynamoQuery && !faults.s3Get && r == Reply(404, S3ObjectMissing) ==>
      exists m :: m in Matching(st.table, userId, documentType) && m.s3Key !in st.s3
  {
  }

  /** Every matching item can be served: some answer is always allowed. */
  lemma GetAlwaysAnswers(st: Stores, faults: Faults, path: string)
    ensures exists r :: GetAllows(st, faults, path, r)
  {
    match ParseDocumentPath(path)
    case None =>
      assert GetAllows(st, faults, path, Reply(400, InvalidPath));
    case Some((userId, documentType)) =>
      if faults.dynamoQuery {
        assert GetAllows(st, faults, path, Reply(500, InternalError));
      } else if Matching(st.table, userId, documentType) == {} {
        assert GetAllows(st, faults, path, Reply(404, DocumentNotFound));
      } else {
        var m :| m in Matching(st.table, userId, documentType);
        assert GetAllows(st, faults, path, Serve(st.s3, faults, userId, documentType, m));
      }
  }

  // ---------------------------------------------------------------------------
  // "The latest document"

  /** Lexicographic order on strings, the order DynamoDB sorts string keys in. */
  predicate LexLess(a: string, b: string)
    decreases |a|
  {
    if a == [] then b != []
    else if b == [] then false
    else a[0] < b[0] || (a[0] == b[0] && LexLess(a[1..], b[1..]))
  }

  /**
   * The query sorts descending on the index's range key, which is `document_type`,
   * the same for every item it returns: an older upload of the same type is as
   * good an answer as the newest one.
   */
  lemma OlderUploadMayBeServed(older: Metadata, newer: Metadata, oldBytes: seq<Byte>, newBytes: seq<Byte>)
    requires older.userId == newer.userId && older.documentType == newer.documentType
    requires '/' !in older.userId && '/' !in older.documentType
    requires older.s3Key != newer.s3Key && LexLess(older.uploadedAt, newer.uploadedAt)
    ensures var st := Stores(map[older.s3Key := oldBytes, newer.s3Key := newBytes], {older, newer});
      GetAllows(st, NoFaults, "/documents/" + older.userId + "/" + older.documentType,
                Response(200, Document(older.userId, older.documentType, older.uploadedAt, Encode(oldBytes))))
  {
    var st := Stores(map[older.s3Key := oldBytes, newer.s3Key := newBytes], {older, newer});
    ParseBuiltPath(older.userId, older.documentType);
    assert older in Matching(st.table, older.userId, older.documentType);
  }

  /** The get as the comment above the query means it: the matching item uploaded last is served. */
  predicate GetLatestAllows(st: Stores, faults: Faults, path: string, r: Response) {
    match ParseDocumentPath(path)
    case None => r == Reply(400, InvalidPath)
    case Some((userId, documentType)) =>
      if faults.dynamoQuery then r == Reply(500, InternalError)
      else if Matching(st.table, userId, documentType) == {} then r == Reply(404, DocumentNotFound)
      else
        exists m :: m in Matching(st.table, userId, documentType)
          && (forall m' :: m' in Matching(st.table, userId, documentType) ==> !LexLess(m.uploadedAt, m'.uploadedAt))
          && r == Serve(st.s3, faults, userId, documentType, m)
  }

  /** Serving the latest item is one of the answers the code as written may give. */
  lemma LatestIsAllowed(st: Stores, faults: Faults, path: string, r: Response)
    requires GetLatestAllows(st, faults, path, r)
    ensures GetAllows(st, faults, path, r)
  {
  }

  /**
   * With the intended order, an upload whose timestamp sorts after every earlier
   * item of that user and type is what the next get returns.
   */
  lemma LatestGetAfterUpload(st: Stores, payload: Payload, now: DateTime, r: Response)
    requires WellFormed(payload)
    requires '/' !in payload.userId.value && '/' !in payload.documentType.value
    requires forall m :: m in Matching(st.table, payload.userId.value, payload.documentType.value) ==>
      LexLess(m.uploadedAt, IsoTimestamp(now))
    requires GetLatestAllows(Upload(st, NoFaults, payload, now).stores, NoFaults,
                             "/documents/" + payload.userId.value + "/" + payload.documentType.value, r)
    ensures r == Response(200, Document(payload.userId.value, payload.documentType.value, IsoTimestamp(now), Encode(Content(payload))))
  {
    var u, t := payload.userId.value, payload.documentType.value;
    var s := Upload(st, NoFaults, payload, now);
    var key := UploadKey(payload, now);
    var item := Metadata(u, t, key, IsoTimestamp(now));
    UploadWrites(st, NoFaults, payload, now);
    ParseBuiltPath(u, t);
    var ms := Matching(s.stores.table, u, t);
    assert item in ms;
    var m :| m in ms && (forall m' :: m' in ms ==> !LexLess(m.uploadedAt, m'.uploadedAt))
      && r == Serve(s.stores.s3, NoFaults, u, t, m);
    if m != item {
      assert false;
    }
  }

  // ---------------------------------------------------------------------------
  // The Lambda's module-level clients

  class DocumentService {
    var s3: map<string, seq<Byte>>
    var table: set<Metadata>
    var faults: Faults

    /** Empty bucket and table; `faults` says which client calls will raise. */
    constructor (faults: Faults)
      ensures s3 == map[] && table == {} && this.faults == faults
    {
      s3 := map[];
      table := {};
      this.faults := faults;
    }

    function State(): Stores
      reads this
    {
      Stores(s3, table)
    }

    /** `upload_document`, one store call after the other. */
    method UploadDocument(payload: Payload, now: DateTime) returns (r: Response)
      modifies this
      ensures faults == old(faults)
      ensures Step(r, State()) == Upload(old(State()), faults, payload, now)
    {
      if payload.NotJson? {
        return Reply(400, MalformedJson);
      }
      if payload.NotObject? {
        return Reply(500, InternalError);
      }
      if MissingField(payload) {
        return Reply(400, MalformedFields);
      }
      var decoded := Decode(payload.fileContent.value);
      if decoded.Failure? {
        return Reply(400, InvalidBase64);
      }
      var timestamp := IsoTimestamp(now);
      var key := S3Key(payload.userId.value, DatePart(timestamp), payload.documentType.value);
      if faults.s3Put {
        return Reply(500, S3PutError);
      }
      s3 := s3[key := decoded.value];
      if faults.dynamoPut {
        return Reply(500, DynamoPutError);
      }
      table := PutItem(table, Metadata(payload.userId.value, payload.documentType.value, key, timestamp));
      r := Response(200, Uploaded(UploadedMessage, key));
    }

    /** `get_document`: parse the path, query the table, read the object. */
    method GetDocument(path: string) returns (r: Response)
      ensures GetAllows(State(), faults, path, r)
    {
      var parsed := ParseDocumentPath(path);
      if parsed.None? {
        return Reply(400, InvalidPath);
      }
      var (userId, documentType) := parsed.value;
      if faults.dynamoQuery {
        return Reply(500, InternalError);
      }
      var items := Matching(table, userId, documentType);
      if items == {} {
        return Reply(404, DocumentNotFound);
      }
      var latest :| latest in items;
      if faults.s3Get {
        return Reply(500, S3GetError);
      }
      if latest.s3Key !in s3 {
        return Reply(404, S3ObjectMissing);
      }
      r := Response(200, Document(userId, documentType, latest.uploadedAt, Encode(s3[latest.s3Key])));
    }

    /** `handler`: route on method and path; a GET without a path raises. */
    method Handler(event: Event, now: DateTime) returns (r: Result<Response, Unhandled>)
      modifies this
      ensures faults == old(faults)
      ensures RouteOf(event) == ToUpload ==>
        r.Success? && Step(r.value, State()) == Upload(old(State()), faults, event.body, now)
      ensures RouteOf(event) == ToGet ==>
        State() == old(State()) && r.Success? && GetAllows(State(), faults, event.path.value, r.value)
      ensures RouteOf(event) == NoRoute ==> State() == old(State()) && r == Success(Reply(404, NotFound))
      ensures RouteOf(event) == PathMissing ==> State() == old(State()) && r == Failure(AttributeError)
    {
      match RouteOf(event) {
        case ToUpload =>
          var response := UploadDocument(event.body, now);
          r := Success(response);
        case ToGet =>
          var response := GetDocument(event.path.value);
          r := Success(response);
        case NoRoute =>
          r := Success(Reply(404, NotFound));
        case PathMissing =>
          r := Failure(AttributeError);
      }
    }
  }

  // ---------------------------------------------------------------------------
  // The scenarios of the test suite

  /**
   * Content that keeps, once the skipped characters are dropped, one alphabet
   * character more than a multiple of four is refused with 400 and writes nothing
   * (the test suite's `not-base64-$$$` keeps the nine characters `notbase64`).
   */
  lemma ExcessCharacterRefused(st: Stores, faults: Faults, userId: string, documentType: string, content: string, now: DateTime)
    requires userId != "" && documentType != "" && content != ""
    requires IsAscii(content) && '=' !in content && DataCount(content) % 4 == 1
    ensures Upload(st, faults, Object(Some(userId), Some(documentType), Some(content)), now)
         == Step(Reply(400, InvalidBase64), st)
  {
    RejectsExcessCharacter(content);
  }

  /** A path with a user id and no type, like the test suite's `/documents/user123`, is refused with 400. */
  lemma UserOnlyPathRefused(st: Stores, faults: Faults, userId: string, r: Response)
    requires '/' !in userId
    requires GetAllows(st, faults, "/documents/" + userId, r)
    ensures r == Reply(400, InvalidPath)
  {
    ShortPathRefused(userId);
  }

  /** Nothing uploaded: the get of any document is 404. */
  lemma EmptyStoresScenario(path: string, userId: string, documentType: string, r: Response)
    requires ParseDocumentPath(path) == Some((userId, documentType))
    requires GetAllows(Stores(map[], {}), NoFaults, path, r)
    ensures r == Reply(404, DocumentNotFound)
  {
  }
}
