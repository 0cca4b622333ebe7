/** The Flask handlers over an in-memory model of the three MongoDB
    collections: users, applications and status changes. */
module Server {
  import opened Common
  import opened Json

  const RequiredFields: seq<string> := ["amount", "duration", "monthlyIncome", "creditHistory", "mobileMoneyHistory"]
  const ValidStatuses: seq<string> := ["pending", "approved", "rejected", "disbursed"]

  /** `valid_statuses` as it appears in the 400 reply. */
  function ValidStatusList(): (v: Value)
    ensures v.Arr? && |v.items| == |ValidStatuses|
    ensures forall i :: 0 <= i < |ValidStatuses| ==> v.items[i] == Str(ValidStatuses[i])
  {
    Arr(seq(|ValidStatuses|, i requires 0 <= i < |ValidStatuses| => Str(ValidStatuses[i])))
  }

  /** `jsonify` as the server has it, or with ObjectIds written as text. */
  function Reply(encodeIds: bool, status: int, body: Value): (r: Response)
    ensures Serializable(body) ==> r == Json(status, body)
    ensures StatusCode(r) == status || StatusCode(r) == 500
  {
    if encodeIds then JsonifyCorrected(status, body) else Jsonify(status, body)
  }

  // ---------------------------------------------------------------------
  // The signup email check: `re.match(r"[^@]+@[^@]+\.[^@]+", email)`

  /** The pattern matches a PREFIX of `s`: some non-`@` characters, an
      `@` at `a`, some non-`@` characters, a `.` at `d`, and one more
      non-`@` character; whatever follows is not looked at. */
  ghost predicate MatchesEmailPrefix(s: string) {
    exists a, d :: EmailWitness(s, a, d)
  }

  /** The regular expression matches `s[..d + 2]` with its `@` at `a` and
      its escaped `.` at `d` (`[^@]` also matches a `.`). */
  predicate EmailWitness(s: string, a: int, d: int) {
    0 < a && a + 2 <= d && d + 2 <= |s| && s[a] == '@' && s[d] == '.' && s[d + 1] != '@' &&
    NoAtBefore(s, d, a)
  }

  /** No `@` in `s[..end]` except possibly at index `skip`. */
  predicate NoAtBefore(s: string, end: int, skip: int)
    requires 0 <= end <= |s|
  {
    forall k :: 0 <= k < end && k != skip ==> s[k] != '@'
  }

  /** The check as a scan: a first `@` after a non-empty prefix, and a `.`
      in the `@`-free run after it, neither first in the run nor last. */
  predicate EmailPrefixOk(s: string) {
    var a := NextAt(s, 0);
    if a < |s| && 0 < a then
      var stop := NextAt(s, a + 1);
      a + 2 <= stop - 1 && '.' in s[a + 2..stop - 1]
    else false
  }

  lemma {:induction false} ScanFindsWitness(s: string)
    requires EmailPrefixOk(s)
    ensures MatchesEmailPrefix(s)
  {
    var a := NextAt(s, 0);
    var stop := NextAt(s, a + 1);
    var run := s[a + 2..stop - 1];
    var j :| 0 <= j < |run| && run[j] == '.';
    var d := a + 2 + j;
    assert s[d] == run[j];
    assert NoAtBefore(s, d, a);
    assert EmailWitness(s, a, d);
  }

  lemma {:induction false} WitnessPassesScan(s: string, a: int, d: int)
    requires EmailWitness(s, a, d)
    ensures EmailPrefixOk(s)
  {
    var first := NextAt(s, 0);
    assert first == a;
    var stop := NextAt(s, a + 1);
    assert d + 1 < stop;
    var run := s[a + 2..stop - 1];
    assert run[d - (a + 2)] == s[d];
  }

  lemma {:induction false} EmailPrefixOkMatchesPattern(s: string)
    ensures EmailPrefixOk(s) <==> MatchesEmailPrefix(s)
  {
    if EmailPrefixOk(s) {
      ScanFindsWitness(s);
    }
    if MatchesEmailPrefix(s) {
      var a, d :| EmailWitness(s, a, d);
      WitnessPassesScan(s, a, d);
    }
  }

  /** Only a prefix is checked: anything may follow an accepted address. */
  lemma {:induction false} EmailPrefixIgnoresSuffix(s: string, rest: string)
    requires EmailPrefixOk(s)
    ensures EmailPrefixOk(s + rest)
  {
    ScanFindsWitness(s);
    var a, d :| EmailWitness(s, a, d);
    var t := s + rest;
    assert t[a] == '@' && t[d] == '.' && t[d + 1] != '@';
    assert forall k :: 0 <= k < d && k != a ==> t[k] == s[k];
    assert EmailWitness(t, a, d);
    WitnessPassesScan(t, a, d);
  }

  // ---------------------------------------------------------------------
  // ObjectIds and Python's str()

  predicate IsHexDigit(c: char) {
    '0' <= c <= '9' || 'a' <= c <= 'f' || 'A' <= c <= 'F'
  }

  /** The ASCII whitespace `bytes.fromhex` skips: space, tab, line feed,
      vertical tab, form feed and carriage return. */
  predicate IsAsciiSpace(c: char) {
    c == ' ' || '\t' <= c <= '\r'
  }

  /** `bytes.fromhex(s)` succeeds: pairs of hexadecimal digits, each pair
      possibly preceded by whitespace, and trailing whitespace. */
  predicate FromHexAccepts(s: string)
    decreases |s|
  {
    if s == [] then true
    else if IsAsciiSpace(s[0]) then FromHexAccepts(s[1..])
    else 2 <= |s| && IsHexDigit(s[0]) && IsHexDigit(s[1]) && FromHexAccepts(s[2..])
  }

  /** `ObjectId.is_valid` on a string: 24 characters that `bytes.fromhex`
      accepts. */
  predicate IsValidObjectId(s: string) {
    |s| == 24 && FromHexAccepts(s)
  }

  /** `str(ObjectId(s))`: the hexadecimal digits of `s` in lower case, with
      the whitespace `bytes.fromhex` skipped left out. */
  function HexText(s: string): (t: string)
    ensures |t| <= |s|
    ensures forall i :: 0 <= i < |t| ==> !IsAsciiSpace(t[i])
  {
    if s == [] then []
    else if IsAsciiSpace(s[0]) then HexText(s[1..])
    else [ToLowerChar(s[0])] + HexText(s[1..])
  }

  /** What `bytes.fromhex` accepts decodes to whole bytes: the text of the
      id is an even number of lower-case hexadecimal digits. */
  lemma {:induction false} FromHexGivesWholeBytes(s: string)
    requires FromHexAccepts(s)
    ensures |HexText(s)| % 2 == 0
    ensures forall i :: 0 <= i < |HexText(s)| ==> '0' <= HexText(s)[i] <= '9' || 'a' <= HexText(s)[i] <= 'f'
    decreases |s|
  {
    if s == [] {
    } else if IsAsciiSpace(s[0]) {
      FromHexGivesWholeBytes(s[1..]);
    } else {
      FromHexGivesWholeBytes(s[2..]);
      assert s[1..][1..] == s[2..];
      assert HexText(s) == [ToLowerChar(s[0]), ToLowerChar(s[1])] + HexText(s[2..]);
    }
  }

  /** Without whitespace, the accepted ids are exactly the 24-digit
      hexadecimal strings, and their text is their lower-casing. */
  lemma {:induction false} PlainHex(s: string)
    requires forall i :: 0 <= i < |s| ==> !IsAsciiSpace(s[i])
    ensures FromHexAccepts(s) <==> |s| % 2 == 0 && forall i :: 0 <= i < |s| ==> IsHexDigit(s[i])
    ensures HexText(s) == Lower(s)
    decreases |s|
  {
    if s != [] {
      PlainHex(s[1..]);
      if 2 <= |s| {
        PlainHex(s[2..]);
        assert s[1..][1..] == s[2..];
      }
      assert forall i :: 1 <= i < |s| ==> s[i] == s[1..][i - 1];
    }
  }

  /** The text of a concatenation is the concatenation of the texts. */
  lemma {:induction false} HexTextAppend(a: string, b: string)
    ensures HexText(a + b) == HexText(a) + HexText(b)
    decreases |a|
  {
    if a != [] {
      assert (a + b)[0] == a[0] && (a + b)[1..] == a[1..] + b;
      HexTextAppend(a[1..], b);
      if !IsAsciiSpace(a[0]) {
        assert HexText(a + b) == [ToLowerChar(a[0])] + (HexText(a[1..]) + HexText(b));
      }
    } else {
      assert a + b == b;
    }
  }

  /** Two accepted strings written one after the other are accepted. */
  lemma {:induction false} FromHexAppend(a: string, b: string)
    requires FromHexAccepts(a) && FromHexAccepts(b)
    ensures FromHexAccepts(a + b)
    decreases |a|
  {
    if a == [] {
      assert a + b == b;
    } else if IsAsciiSpace(a[0]) {
      assert (a + b)[1..] == a[1..] + b;
      FromHexAppend(a[1..], b);
    } else {
      assert (a + b)[2..] == a[2..] + b;
      FromHexAppend(a[2..], b);
    }
  }

  /** Whitespace alone is accepted and decodes to nothing. */
  lemma {:induction false} SpacesAreSkipped(w: string)
    requires forall i :: 0 <= i < |w| ==> IsAsciiSpace(w[i])
    ensures FromHexAccepts(w) && HexText(w) == []
    decreases |w|
  {
    if w != [] {
      SpacesAreSkipped(w[1..]);
    }
  }

  /** So a 24-character id may hold fewer than 12 bytes: 22 digits and
      two spaces pass the check, and the id's text is the 22 digits. */
  lemma SpacedIdIsValid(d: string)
    requires |d| == 22 && forall i :: 0 <= i < |d| ==> IsHexDigit(d[i])
    ensures IsValidObjectId(d + "  ") && HexText(d + "  ") == Lower(d)
  {
    PlainHex(d);
    SpacesAreSkipped("  ");
    FromHexAppend(d, "  ");
    HexTextAppend(d, "  ");
  }

  /** The ids MongoDB generates: 24 lower-case hexadecimal digits. */
  predicate IsGeneratedObjectId(s: string) {
    |s| == 24 && forall i :: 0 <= i < |s| ==> '0' <= s[i] <= '9' || 'a' <= s[i] <= 'f'
  }

  /** A generated id is a valid ObjectId and is its own `str()`. */
  lemma GeneratedObjectIdIsCanonical(s: string)
    requires IsGeneratedObjectId(s)
    ensures IsValidObjectId(s) && HexText(s) == s
  {
    PlainHex(s);
    LowerKeepsLowerCase(s);
  }

  /** `str(v)`: a string is itself, an ObjectId its lower-case hex; the
      text of any other value is given by `render`. */
  function PyStr(v: Value, render: Value -> string): (t: string)
    ensures v.Str? ==> t == v.s
    ensures v.Oid? ==> t == Lower(v.hex)
  {
    match v
    case Str(s) => s
    case Oid(h) => Lower(h)
    case _ => render(v)
  }

  // ---------------------------------------------------------------------
  // Queries over a collection

  predicate Matches(doc: Doc, key: string, value: Value) {
    key in doc && doc[key] == value
  }

  /** `find_one({key: value})`: the first matching document from `from` on. */
  function Lookup(docs: seq<Doc>, key: string, value: Value, from: nat): (r: Option<nat>)
    requires from <= |docs|
    ensures r.Some? ==> from <= r.value < |docs| && Matches(docs[r.value], key, value)
    ensures r.Some? ==> forall i :: from <= i < r.value ==> !Matches(docs[i], key, value)
    ensures r.None? ==> forall i :: from <= i < |docs| ==> !Matches(docs[i], key, value)
    decreases |docs| - from
  {
    if from == |docs| then None
    else if Matches(docs[from], key, value) then Some(from)
    else Lookup(docs, key, value, from + 1)
  }

  predicate WellFormedUser(doc: Doc) {
    "_id" in doc && doc["_id"].Oid? && "email" in doc && doc["email"].Str? &&
    "password" in doc && doc["password"].Bin? && "name" in doc
  }

  predicate WellFormedApplication(doc: Doc) {
    "_id" in doc && "user_id" in doc && doc["user_id"].Str? &&
    "status" in doc && doc["status"].Str? && doc["status"].s in ValidStatuses
  }

  // ---------------------------------------------------------------------
  // predict

  /** A request either stops with a reply, or goes on with its fields. */
  datatype Checked = Reject(response: Response) | Proceed(data: Doc, result: Doc)

  /** How the scorer subprocess ended: the timeout fired, or it exited
      with a code, its standard error, and its output parsed as JSON
      (`None` when the output is not JSON). */
  datatype ScorerRun = TimedOut | Exited(code: int, stderr: string, stdout: Option<Value>)

  /** The checks `predict` makes before storing, in order. */
  function CheckPredictRequest(encodeIds: bool, body: Option<Value>, run: ScorerRun): (c: Checked)
    ensures body.None? ==> c == Reject(Failure(BadRequest))
    ensures body.Some? && AllPresent(body.value, RequiredFields).Raise? ==> c == Reject(Failure(TypeError))
    ensures body.Some? && AllPresent(body.value, RequiredFields) == Ok(false) ==>
              c == Reject(Reply(encodeIds, 400, ErrorBody("Missing required fields")))
    ensures body.Some? && AllPresent(body.value, RequiredFields) == Ok(true) ==>
              (run.TimedOut? ==> c == Reject(Reply(encodeIds, 504, ErrorBody("Prediction timed out")))) &&
              (run.Exited? && run.code != 0 ==>
                 c == Reject(Reply(encodeIds, 500, Obj(map["error" := Str("Prediction failed"), "details" := Str(run.stderr)])))) &&
              (run.Exited? && run.code == 0 && run.stdout.None? ==>
                 c == Reject(Reply(encodeIds, 500, ErrorBody("Invalid prediction response"))))
    ensures c.Proceed? <==>
              body.Some? && body.value.Obj? && (forall i :: 0 <= i < |RequiredFields| ==> RequiredFields[i] in body.value.fields) &&
              run.Exited? && run.code == 0 && run.stdout.Some? && run.stdout.value.Obj?
    ensures c.Proceed? ==> c.data == body.value.fields && c.result == run.stdout.value.fields
  {
    if body.None? then Reject(Failure(BadRequest))
    else
      var present := AllPresent(body.value, RequiredFields);
      if present.Raise? then Reject(Failure(present.exc))
      else if !present.value then Reject(Reply(encodeIds, 400, ErrorBody("Missing required fields")))
      else match run
        case TimedOut => Reject(Reply(encodeIds, 504, ErrorBody("Prediction timed out")))
        case Exited(code, stderr, stdout) =>
          if code != 0 then
            Reject(Reply(encodeIds, 500, Obj(map["error" := Str("Prediction failed"), "details" := Str(stderr)])))
          else if stdout.None? then Reject(Reply(encodeIds, 500, ErrorBody("Invalid prediction response")))
          else if !body.value.Obj? || !stdout.value.Obj? then Reject(Failure(TypeError))
          else Proceed(body.value.fields, stdout.value.fields)
  }

  /** `{**data, **result_json, 'user_id': ..., 'status': 'pending', 'created_at': ...}`:
      later entries win, so the owner and the status never come from the request. */
  function NewApplication(data: Doc, result: Doc, identity: string, createdAt: int): (doc: Doc)
    ensures doc.Keys == data.Keys + result.Keys + {"user_id", "status", "created_at"}
    ensures doc["user_id"] == Str(identity) && doc["status"] == Str("pending") && doc["created_at"] == Date(createdAt)
    ensures forall k :: k in result && k !in {"user_id", "status", "created_at"} ==> doc[k] == result[k]
    ensures forall k :: k in data && k !in result && k !in {"user_id", "status", "created_at"} ==> doc[k] == data[k]
    ensures WellFormedApplication(doc) || "_id" !in doc
  {
    data + result + map["user_id" := Str(identity), "status" := Str("pending"), "created_at" := Date(createdAt)]
  }

  /** `insert_one` keeps a given `_id` and otherwise assigns a fresh one. */
  function WithId(doc: Doc, newId: string): (d: Doc)
    ensures "_id" in d
    ensures "_id" in doc ==> d == doc
    ensures "_id" !in doc ==> d == doc["_id" := Oid(newId)]
  {
    if "_id" in doc then doc else doc["_id" := Oid(newId)]
  }

  // ---------------------------------------------------------------------
  // update_application_status

  datatype StatusChecked = Stop(response: Response) | Go(data: Doc, status: string)

  /** The checks made before touching the store, in order: the id
      format, then the body, then the status value. */
  function CheckStatusRequest(encodeIds: bool, appId: string, body: Option<Value>): (c: StatusChecked)
    ensures !IsValidObjectId(appId) ==> c == Stop(Reply(encodeIds, 400, ErrorBody("Invalid application ID format")))
    ensures IsValidObjectId(appId) && body.None? ==> c == Stop(Failure(BadRequest))
    ensures IsValidObjectId(appId) && body.Some? &&
            (Contains(body.value, "status") == Ok(false) ||
             (body.value.Obj? && "status" in body.value.fields &&
              !(body.value.fields["status"].Str? && body.value.fields["status"].s in ValidStatuses))) ==>
              c == Stop(Reply(encodeIds, 400, Obj(map["error" := Str("Valid status is required"), "valid_statuses" := ValidStatusList()])))
    ensures c.Go? <==>
              IsValidObjectId(appId) && body.Some? && body.value.Obj? && "status" in body.value.fields &&
              body.value.fields["status"].Str? && body.value.fields["status"].s in ValidStatuses
    ensures c.Go? ==> c.data == body.value.fields && c.status == body.value.fields["status"].s
  {
    if !IsValidObjectId(appId) then Stop(Reply(encodeIds, 400, ErrorBody("Invalid application ID format")))
    else if body.None? then Stop(Failure(BadRequest))
    else
      var data := body.value;
      var has := Contains(data, "status");
      if has.Raise? then Stop(Failure(has.exc))
      else if !has.value || (data.Obj? && !(data.fields["status"].Str? && data.fields["status"].s in ValidStatuses)) then
        Stop(Reply(encodeIds, 400, Obj(map["error" := Str("Valid status is required"), "valid_statuses" := ValidStatusList()])))
      else if !data.Obj? then Stop(Failure(TypeError))
      else Go(data.fields, data.fields["status"].s)
  }

  /** The `$set` document: status, update time and, only when the request
      has a `note` key, `admin_note`. */
  function UpdateData(data: Doc, status: string, setAt: int): (u: Doc)
    ensures u.Keys == {"status", "updated_at"} + (if "note" in data then {"admin_note"} else {})
    ensures u["status"] == Str(status) && u["updated_at"] == Date(setAt)
    ensures "note" in data ==> u["admin_note"] == data["note"]
  {
    var u := map["status" := Str(status), "updated_at" := Date(setAt)];
    if "note" in data then u["admin_note" := data["note"]] else u
  }

  /** `updated_app.get('status_history', [{}])[-1].get('status')` when the
      key is present, `None` otherwise, with the exceptions Python raises. */
  function PreviousStatus(doc: Doc): (r: Try<Value>)
    ensures "status_history" !in doc ==> r == Ok(Null)
    ensures "status_history" in doc && doc["status_history"].Arr? && doc["status_history"].items != [] &&
            doc["status_history"].items[|doc["status_history"].items| - 1].Obj? ==>
              r.Ok? &&
              var last := doc["status_history"].items[|doc["status_history"].items| - 1].fields;
              r.value == if "status" in last then last["status"] else Null
  {
    if "status_history" !in doc then Ok(Null)
    else match doc["status_history"]
      case Arr(items) =>
        if items == [] then Raise(IndexError)
        else if items[|items| - 1].Obj? then
          var last := items[|items| - 1].fields;
          Ok(if "status" in last then last["status"] else Null)
        else Raise(AttributeError)
      case Obj(_) => Raise(KeyError)
      case Str(t) => if t == "" then Raise(IndexError) else Raise(AttributeError)
      case Bin(b) => if b == [] then Raise(IndexError) else Raise(AttributeError)
      case _ => Raise(TypeError)
  }

  /** `$push` onto `status_history`: creates the array when absent, and
      fails on a field that is not an array. */
  function PushHistory(doc: Doc, entry: Doc): (r: Try<Doc>)
    ensures "status_history" !in doc ==> r == Ok(doc["status_history" := Arr([Obj(entry)])])
    ensures "status_history" in doc && doc["status_history"].Arr? ==>
              r == Ok(doc["status_history" := Arr(doc["status_history"].items + [Obj(entry)])])
    ensures r.Raise? <==> "status_history" in doc && !doc["status_history"].Arr?
  {
    if "status_history" !in doc then Ok(doc["status_history" := Arr([Obj(entry)])])
    else if doc["status_history"].Arr? then Ok(doc["status_history" := Arr(doc["status_history"].items + [Obj(entry)])])
    else Raise(WriteError)
  }

  /** The handler reads the previous status before it pushes, and that read
      already raises on every history that is present and not an array. So
      once the read succeeds the `$push` succeeds too, whatever the record's
      `_id` was replaced with for the reply. */
  lemma PreviousStatusReadMeansPushSucceeds(doc: Doc, shownId: Value, entry: Doc)
    requires PreviousStatus(doc["_id" := shownId]).Ok?
    ensures PushHistory(doc, entry).Ok?
  {
    var shown := doc["_id" := shownId];
    assert "status_history" in doc <==> "status_history" in shown;
    if "status_history" in doc {
      assert shown["status_history"] == doc["status_history"];
    }
  }

  // ---------------------------------------------------------------------
  // Listing

  /** A listed record: `_id` as text, any `password` dropped. */
  function Cleaned(doc: Doc, render: Value -> string): (c: Doc)
    requires "_id" in doc
    ensures c.Keys == doc.Keys - {"password"}
    ensures c["_id"] == Str(PyStr(doc["_id"], render))
    ensures forall k :: k in doc && k != "_id" && k != "password" ==> c[k] == doc[k]
  {
    doc["_id" := Str(PyStr(doc["_id"], render))] - {"password"}
  }

  /** A record of the caller's own: `_id` and `user_id` as text. */
  function Shown(doc: Doc, render: Value -> string): (c: Doc)
    requires "_id" in doc && "user_id" in doc
    ensures c.Keys == doc.Keys
    ensures c["_id"] == Str(PyStr(doc["_id"], render)) && c["user_id"] == Str(PyStr(doc["user_id"], render))
    ensures forall k :: k in doc && k != "_id" && k != "user_id" ==> c[k] == doc[k]
  {
    doc["_id" := Str(PyStr(doc["_id"], render))]["user_id" := Str(PyStr(doc["user_id"], render))]
  }

  function Listed(docs: seq<Doc>, render: Value -> string): (vs: seq<Value>)
    requires forall i :: 0 <= i < |docs| ==> "_id" in docs[i]
    ensures |vs| == |docs|
    ensures forall i :: 0 <= i < |docs| ==> vs[i] == Obj(Cleaned(docs[i], render))
  {
    seq(|docs|, i requires 0 <= i < |docs| => Obj(Cleaned(docs[i], render)))
  }

  /** The caller's records, in store order. */
  function Owned(docs: seq<Doc>, identity: string, render: Value -> string): seq<Value>
    requires forall i :: 0 <= i < |docs| ==> "_id" in docs[i] && "user_id" in docs[i]
  {
    if docs == [] then []
    else
      var last := docs[|docs| - 1];
      Owned(docs[..|docs| - 1], identity, render) +
      (if Matches(last, "user_id", Str(identity)) then [Obj(Shown(last, render))] else [])
  }

  /** Everything listed for the caller is one of the caller's records,
      and every one of the caller's records is listed. */
  lemma {:induction false} OwnedIsExactlyTheCallersRecords(docs: seq<Doc>, identity: string, render: Value -> string)
    requires forall i :: 0 <= i < |docs| ==> "_id" in docs[i] && "user_id" in docs[i]
    ensures forall v :: v in Owned(docs, identity, render) ==>
              exists i :: 0 <= i < |docs| && Matches(docs[i], "user_id", Str(identity)) && v == Obj(Shown(docs[i], render))
    ensures forall i :: 0 <= i < |docs| && Matches(docs[i], "user_id", Str(identity)) ==>
              Obj(Shown(docs[i], render)) in Owned(docs, identity, render)
  {
    if docs != [] {
      var init := docs[..|docs| - 1];
      OwnedIsExactlyTheCallersRecords(init, identity, render);
      forall v | v in Owned(docs, identity, render)
        ensures exists i :: 0 <= i < |docs| && Matches(docs[i], "user_id", Str(identity)) && v == Obj(Shown(docs[i], render))
      {
        if v in Owned(init, identity, render) {
          var i :| 0 <= i < |init| && Matches(init[i], "user_id", Str(identity)) && v == Obj(Shown(init[i], render));
          assert docs[i] == init[i];
        } else {
          assert v == Obj(Shown(docs[|docs| - 1], render));
        }
      }
      forall i | 0 <= i < |docs| && Matches(docs[i], "user_id", Str(identity))
        ensures Obj(Shown(docs[i], render)) in Owned(docs, identity, render)
      {
        if i < |docs| - 1 {
          assert docs[i] == init[i];
        }
      }
    }
  }

  /** The login reply: token, user id and the stored name. */
  function LoginReply(user: Doc, issue: string -> string): (body: Value)
    requires WellFormedUser(user)
    ensures body.Obj? && body.fields.Keys == {"access_token", "user_id", "name"}
    ensures body.fields["user_id"] == Str(Lower(user["_id"].hex)) && body.fields["name"] == user["name"]
  {
    var id := Lower(user["_id"].hex);
    Obj(map["access_token" := Str(issue(id)), "user_id" := Str(id), "name" := user["name"]])
  }

  /** The user `find_one({'email': email})` returns at login. A string
      (or any other plain value) is compared for equality; a dict is a
      MongoDB query such as `{"$ne": null}`, whose answer `selected` is
      given, as the query language is not modelled. */
  function FoundUser(users: seq<Doc>, email: Value, selected: Option<nat>): (r: Option<nat>)
    requires selected.Some? ==> selected.value < |users|
    ensures r.Some? ==> r.value < |users|
    ensures email.Str? && r.Some? ==> Matches(users[r.value], "email", email)
    ensures email.Str? && r.None? ==> forall i :: 0 <= i < |users| ==> !Matches(users[i], "email", email)
    ensures email.Obj? ==> r == selected
  {
    if email.Obj? then selected else Lookup(users, "email", email, 0)
  }

  predicate UsersValid(users: seq<Doc>) {
    (forall i :: 0 <= i < |users| ==> WellFormedUser(users[i])) &&
    (forall i, j :: 0 <= i < j < |users| ==> users[i]["email"] != users[j]["email"] && users[i]["_id"] != users[j]["_id"])
  }

  predicate ApplicationsValid(apps: seq<Doc>) {
    (forall i :: 0 <= i < |apps| ==> WellFormedApplication(apps[i])) &&
    (forall i, j :: 0 <= i < j < |apps| ==> apps[i]["_id"] != apps[j]["_id"])
  }

  /** What `signup` decides before writing: a reply, or the user to insert. */
  datatype SignupChecked = Refuse(response: Response) | Register(user: Doc)

  /** The checks `signup` makes on the request body, in order: the body
      and its three fields; then `CheckSignupFields`. */
  function CheckSignupRequest(encodeIds: bool, users: seq<Doc>, body: Option<Value>, hashed: seq<int>, createdAt: int, newId: string): (c: SignupChecked)
    ensures body.None? ==> c == Refuse(Failure(BadRequest))
    ensures body.Some? && (Falsy(body.value) || AllPresent(body.value, ["email", "password", "name"]) == Ok(false)) ==>
              c == Refuse(Reply(encodeIds, 400, ErrorBody("Name, email and password are required")))
    ensures body.Some? && !Falsy(body.value) && AllPresent(body.value, ["email", "password", "name"]).Raise? ==>
              c == Refuse(Failure(TypeError))
    ensures body.Some? && !Falsy(body.value) && !body.value.Obj? && AllPresent(body.value, ["email", "password", "name"]) == Ok(true) ==>
              c == Refuse(Failure(TypeError))
    ensures body.Some? && !Falsy(body.value) && body.value.Obj? &&
            "email" in body.value.fields && "password" in body.value.fields && "name" in body.value.fields ==>
              c == CheckSignupFields(encodeIds, users, body.value.fields, hashed, createdAt, newId)
    ensures c.Register? ==>
              WellFormedUser(c.user) && c.user["_id"] == Oid(newId) &&
              Lookup(users, "email", c.user["email"], 0).None? && Lookup(users, "_id", c.user["_id"], 0).None?
    ensures c.Refuse? ==> StatusCode(c.response) != 201
  {
    if body.None? then Refuse(Failure(BadRequest))
    else
      var data := body.value;
      var present := AllPresent(data, ["email", "password", "name"]);
      if Falsy(data) then Refuse(Reply(encodeIds, 400, ErrorBody("Name, email and password are required")))
      else if present.Raise? then Refuse(Failure(present.exc))
      else if !present.value then Refuse(Reply(encodeIds, 400, ErrorBody("Name, email and password are required")))
      else if !data.Obj? then Refuse(Failure(TypeError))
      else
        assert ["email", "password", "name"][0] in data.fields;
        assert ["email", "password", "name"][1] in data.fields;
        assert ["email", "password", "name"][2] in data.fields;
        CheckSignupFields(encodeIds, users, data.fields, hashed, createdAt, newId)
  }

  /** The checks on the three fields, in order: the e-mail pattern, an
      existing user with that e-mail, the password's `encode`, and finally
      the fresh id, which `insert_one` refuses when it is taken. */
  function CheckSignupFields(encodeIds: bool, users: seq<Doc>, data: Doc, hashed: seq<int>, createdAt: int, newId: string): (c: SignupChecked)
    requires "email" in data && "password" in data && "name" in data
    ensures var email := data["email"];
            var isNew := email.Str? && EmailPrefixOk(email.s) && Lookup(users, "email", email, 0).None?;
            (!email.Str? ==> c == Refuse(Failure(TypeError))) &&
            (email.Str? && !EmailPrefixOk(email.s) ==> c == Refuse(Reply(encodeIds, 400, ErrorBody("Invalid email format")))) &&
            (email.Str? && EmailPrefixOk(email.s) && Lookup(users, "email", email, 0).Some? ==>
               c == Refuse(Reply(encodeIds, 409, ErrorBody("User already exists")))) &&
            (isNew && !data["password"].Str? ==> c == Refuse(Failure(AttributeError))) &&
            (isNew && data["password"].Str? && Lookup(users, "_id", Oid(newId), 0).Some? ==>
               c == Refuse(Failure(DuplicateKey))) &&
            (isNew && data["password"].Str? && Lookup(users, "_id", Oid(newId), 0).None? ==>
               c == Register(map["name" := data["name"], "email" := email, "password" := Bin(hashed),
                                 "created_at" := Date(createdAt), "_id" := Oid(newId)]))
    ensures c.Register? ==>
              WellFormedUser(c.user) && c.user["_id"] == Oid(newId) &&
              Lookup(users, "email", c.user["email"], 0).None? && Lookup(users, "_id", c.user["_id"], 0).None?
    ensures c.Refuse? ==> StatusCode(c.response) != 201
  {
    var email := data["email"];
    if !email.Str? then Refuse(Failure(TypeError))
    else if !EmailPrefixOk(email.s) then Refuse(Reply(encodeIds, 400, ErrorBody("Invalid email format")))
    else if Lookup(users, "email", email, 0).Some? then Refuse(Reply(encodeIds, 409, ErrorBody("User already exists")))
    else if !data["password"].Str? then Refuse(Failure(AttributeError))
    else if Lookup(users, "_id", Oid(newId), 0).Some? then Refuse(Failure(DuplicateKey))
    else Register(map["name" := data["name"], "email" := email, "password" := Bin(hashed),
                      "created_at" := Date(createdAt), "_id" := Oid(newId)])
  }

  /** The 201 reply of a signup: a message, the token and the new id as text. */
  function SignupReply(newId: string, issue: string -> string): (body: Value)
    ensures body.Obj? && body.fields.Keys == {"message", "access_token", "user_id"}
    ensures body.fields["user_id"] == Str(Lower(newId)) && body.fields["access_token"] == Str(issue(Lower(newId)))
    ensures Serializable(body)
  {
    var reply := map["message" := Str("User registered successfully"),
                     "access_token" := Str(issue(Lower(newId))),
                     "user_id" := Str(Lower(newId))];
    assert forall k :: k in reply ==> reply[k].Str?;
    Obj(reply)
  }

  /** Adding a well-formed user whose e-mail and id are both new keeps
      the users valid. */
  lemma AppendUserKeepsUsersValid(users: seq<Doc>, user: Doc)
    requires UsersValid(users) && WellFormedUser(user)
    requires Lookup(users, "email", user["email"], 0).None?
    requires Lookup(users, "_id", user["_id"], 0).None?
    ensures UsersValid(users + [user])
  {
    var users' := users + [user];
    forall i, j | 0 <= i < j < |users'|
      ensures users'[i]["email"] != users'[j]["email"] && users'[i]["_id"] != users'[j]["_id"]
    {
      if j == |users| {
        assert !Matches(users[i], "email", user["email"]) && !Matches(users[i], "_id", user["_id"]);
      }
    }
  }

  /** Adding a well-formed application with a new `_id` keeps the
      applications valid. */
  lemma AppendKeepsApplicationsValid(apps: seq<Doc>, doc: Doc)
    requires ApplicationsValid(apps) && WellFormedApplication(doc)
    requires forall i :: 0 <= i < |apps| ==> apps[i]["_id"] != doc["_id"]
    ensures ApplicationsValid(apps + [doc])
  {
  }

  /** Rewriting one record in place, keeping its `_id`, keeps the
      collection valid. */
  lemma ReplaceKeepsApplicationsValid(apps: seq<Doc>, i: nat, doc: Doc)
    requires ApplicationsValid(apps) && i < |apps|
    requires WellFormedApplication(doc) && doc["_id"] == apps[i]["_id"]
    ensures ApplicationsValid(apps[i := doc])
  {
    var apps' := apps[i := doc];
    forall j, k | 0 <= j < k < |apps'| ensures apps'[j]["_id"] != apps'[k]["_id"] {
      assert apps'[j]["_id"] == apps[j]["_id"] && apps'[k]["_id"] == apps[k]["_id"];
    }
  }

  /** The document logged in `status_changes`. */
  function ChangeRecord(appId: string, previous: Value, status: string, identity: string, note: Value, changedAt: int): (d: Doc)
    ensures d.Keys == {"application_id", "previous_status", "new_status", "changed_by", "changed_at", "note"}
    ensures d["previous_status"] == previous && d["new_status"] == Str(status) && d["note"] == note
  {
    map["application_id" := Oid(HexText(appId)),
        "previous_status" := previous,
        "new_status" := Str(status),
        "changed_by" := Oid(HexText(identity)),
        "changed_at" := Date(changedAt),
        "note" := note]
  }

  /** `data.get('note')`. */
  function NoteOf(data: Doc): (v: Value)
    ensures "note" in data ==> v == data["note"]
    ensures "note" !in data ==> v == Null
  {
    if "note" in data then data["note"] else Null
  }

  /** The success reply of a status update. */
  function UpdatedReply(shown: Doc): (body: Value)
    ensures body.Obj? && body.fields.Keys == {"message", "application"}
    ensures body.fields["application"] == Obj(shown)
  {
    Obj(map["message" := Str("Application status updated successfully"), "application" := Obj(shown)])
  }

  class Store {
    var users: seq<Doc>
    var applications: seq<Doc>
    var statusChanges: seq<Doc>
    /** Whether replies write ObjectIds as text (the corrected serialiser). */
    const encodeIds: bool

    constructor (encodeIds: bool)
      ensures users == [] && applications == [] && statusChanges == []
      ensures this.encodeIds == encodeIds
      ensures Valid()
    {
      users, applications, statusChanges := [], [], [];
      this.encodeIds := encodeIds;
    }

    /** Users are well formed with distinct emails and ids; applications
        are well formed (owner, status among the four) with distinct ids. */
    predicate Valid()
      reads this
    {
      UsersValid(users) && ApplicationsValid(applications)
    }

    /** `POST /api/predict`: after the checks, store the merged record and
        reply with the scorer's output. */
    method Predict(body: Option<Value>, identity: string, run: ScorerRun, createdAt: int, newId: string)
      returns (r: Response)
      requires Valid()
      requires IsGeneratedObjectId(newId)
      modifies this`applications
      ensures Valid()
      ensures CheckPredictRequest(encodeIds, body, run).Reject? ==>
                r == CheckPredictRequest(encodeIds, body, run).response && applications == old(applications)
      ensures CheckPredictRequest(encodeIds, body, run).Proceed? ==>
                var c := CheckPredictRequest(encodeIds, body, run);
                var doc := WithId(NewApplication(c.data, c.result, identity, createdAt), newId);
                if doc["_id"].Arr? then
                  r == Failure(WriteError) && applications == old(applications)
                else if exists i :: 0 <= i < |old(applications)| && old(applications)[i]["_id"] == doc["_id"] then
                  r == Failure(DuplicateKey) && applications == old(applications)
                else
                  r == Reply(encodeIds, 200, Obj(c.result)) && applications == old(applications) + [doc]
    {
      var c := CheckPredictRequest(encodeIds, body, run);
      if c.Reject? {
        return c.response;
      }
      var doc := WithId(NewApplication(c.data, c.result, identity, createdAt), newId);
      if doc["_id"].Arr? {
        return Failure(WriteError);
      }
      if exists i :: 0 <= i < |applications| && applications[i]["_id"] == doc["_id"] {
        return Failure(DuplicateKey);
      }
      AppendKeepsApplicationsValid(applications, doc);
      applications := applications + [doc];
      assert Valid();
      r := Reply(encodeIds, 200, Obj(c.result));
    }

    /** `GET /api/applications`: every record, `_id` as text, passwords
        dropped; the caller's identity must parse as an ObjectId. */
    method GetApplications(identity: string, render: Value -> string) returns (r: Response)
      requires Valid()
      ensures !IsValidObjectId(identity) ==> r == Failure(InvalidId)
      ensures IsValidObjectId(identity) ==> r == Reply(encodeIds, 200, Arr(Listed(applications, render)))
    {
      if !IsValidObjectId(identity) {
        return Failure(InvalidId);
      }
      var records: seq<Value> := [];
      for i := 0 to |applications|
        invariant records == Listed(applications[..i], render)
      {
        var record := applications[i];
        record := record["_id" := Str(PyStr(record["_id"], render))];
        record := record - {"password"};
        records := records + [Obj(record)];
      }
      assert applications[..|applications|] == applications;
      r := Reply(encodeIds, 200, Arr(records));
    }

    /** `GET /api/my-applications`: the caller's records in store order. */
    method GetMyApplications(identity: string, render: Value -> string) returns (r: Response)
      requires Valid()
      ensures r == Reply(encodeIds, 200, Arr(Owned(applications, identity, render)))
    {
      var records: seq<Value> := [];
      for i := 0 to |applications|
        invariant records == Owned(applications[..i], identity, render)
      {
        assert applications[..i + 1][..i] == applications[..i];
        var app := applications[i];
        if Matches(app, "user_id", Str(identity)) {
          app := app["_id" := Str(PyStr(app["_id"], render))];
          app := app["user_id" := Str(PyStr(app["user_id"], render))];
          records := records + [Obj(app)];
        }
      }
      assert applications[..|applications|] == applications;
      r := Reply(encodeIds, 200, Arr(records));
    }

    /** `POST /api/signup`: the checks in order, then one new user. */
    method Signup(body: Option<Value>, hashed: seq<int>, createdAt: int, newId: string, issue: string -> string)
      returns (r: Response)
      requires Valid()
      requires IsGeneratedObjectId(newId)
      modifies this`users
      ensures Valid()
      ensures CheckSignupRequest(encodeIds, old(users), body, hashed, createdAt, newId).Refuse? ==>
                r == CheckSignupRequest(encodeIds, old(users), body, hashed, createdAt, newId).response &&
                users == old(users)
      ensures CheckSignupRequest(encodeIds, old(users), body, hashed, createdAt, newId).Register? ==>
                r == Reply(encodeIds, 201, SignupReply(newId, issue)) &&
                users == old(users) + [CheckSignupRequest(encodeIds, old(users), body, hashed, createdAt, newId).user]
      ensures users != old(users) <==> StatusCode(r) == 201
    {
      var c := CheckSignupRequest(encodeIds, users, body, hashed, createdAt, newId);
      if c.Refuse? {
        return c.response;
      }
      AppendUserKeepsUsersValid(users, c.user);
      users := users + [c.user];
      assert Valid();
      r := Reply(encodeIds, 201, SignupReply(newId, issue));
    }

    /** `POST /api/login`: an unknown email and a wrong password get the
        same 401 reply. */
    method Login(body: Option<Value>, selected: Option<nat>, checkpw: (string, seq<int>) -> bool, issue: string -> string)
      returns (r: Response)
      requires Valid()
      requires selected.Some? ==> selected.value < |users|
      ensures body.None? ==> r == Failure(BadRequest)
      ensures body.Some? && (Falsy(body.value) || AllPresent(body.value, ["email", "password"]) == Ok(false)) ==>
                r == Reply(encodeIds, 400, ErrorBody("Email and password are required"))
      ensures body.Some? && !Falsy(body.value) && AllPresent(body.value, ["email", "password"]).Raise? ==>
                r == Failure(TypeError)
      ensures body.Some? && !Falsy(body.value) && !body.value.Obj? && AllPresent(body.value, ["email", "password"]) == Ok(true) ==>
                r == Failure(TypeError)
      ensures body.Some? && !Falsy(body.value) && body.value.Obj? &&
              "email" in body.value.fields && "password" in body.value.fields ==>
                var data := body.value.fields;
                var found := FoundUser(users, data["email"], selected);
                (found.None? ==> r == Reply(encodeIds, 401, ErrorBody("Invalid credentials"))) &&
                (found.Some? && !data["password"].Str? ==> r == Failure(AttributeError)) &&
                (found.Some? && data["password"].Str? && !checkpw(data["password"].s, users[found.value]["password"].bytes) ==>
                   r == Reply(encodeIds, 401, ErrorBody("Invalid credentials"))) &&
                (found.Some? && data["password"].Str? && checkpw(data["password"].s, users[found.value]["password"].bytes) ==>
                   r == Reply(encodeIds, 200, LoginReply(users[found.value], issue)))
    {
      if body.None? {
        return Failure(BadRequest);
      }
      var data := body.value;
      if Falsy(data) {
        return Reply(encodeIds, 400, ErrorBody("Email and password are required"));
      }
      var present := AllPresent(data, ["email", "password"]);
      if present.Raise? {
        return Failure(present.exc);
      }
      if !present.value {
        return Reply(encodeIds, 400, ErrorBody("Email and password are required"));
      }
      if !data.Obj? {
        return Failure(TypeError);
      }
      assert "email" in data.fields && "password" in data.fields by {
        assert forall i :: 0 <= i < 2 ==> ["email", "password"][i] in data.fields;
        assert ["email", "password"][1] == "password";
      }
      var found := FoundUser(users, data.fields["email"], selected);
      if found.None? {
        return Reply(encodeIds, 401, ErrorBody("Invalid credentials"));
      }
      var user := users[found.value];
      var password := data.fields["password"];
      if !password.Str? {
        return Failure(AttributeError);
      }
      if !checkpw(password.s, user["password"].bytes) {
        return Reply(encodeIds, 401, ErrorBody("Invalid credentials"));
      }
      r := Reply(encodeIds, 200, LoginReply(user, issue));
    }

    /** `PUT /api/applications/<id>/status`: after the checks, `$set` the
        status, log the change, `$push` one history entry, and reply with
        the record as it was between the `$set` and the `$push`. */
    method UpdateApplicationStatus(appId: string, body: Option<Value>, identity: string, setAt: int, loggedAt: int, pushedAt: int)
      returns (r: Response)
      requires Valid()
      modifies this`applications, this`statusChanges
      ensures Valid()
      ensures CheckStatusRequest(encodeIds, appId, body).Stop? ==>
                r == CheckStatusRequest(encodeIds, appId, body).response &&
                applications == old(applications) && statusChanges == old(statusChanges)
      ensures CheckStatusRequest(encodeIds, appId, body).Go? && Lookup(old(applications), "_id", Oid(HexText(appId)), 0).None? ==>
                r == Reply(encodeIds, 404, ErrorBody("Application not found")) &&
                applications == old(applications) && statusChanges == old(statusChanges)
      ensures CheckStatusRequest(encodeIds, appId, body).Go? && Lookup(old(applications), "_id", Oid(HexText(appId)), 0).Some? ==>
                var c := CheckStatusRequest(encodeIds, appId, body);
                var i := Lookup(old(applications), "_id", Oid(HexText(appId)), 0).value;
                StatusChanged(old(applications), old(statusChanges), applications, statusChanges, r,
                              i, appId, c.data, c.status, identity, setAt, loggedAt, pushedAt)
    {
      var c := CheckStatusRequest(encodeIds, appId, body);
      if c.Stop? {
        return c.response;
      }
      var found := Lookup(applications, "_id", Oid(HexText(appId)), 0);
      if found.None? {
        return Reply(encodeIds, 404, ErrorBody("Application not found"));
      }
      r := ChangeStatusAt(found.value, appId, c.data, c.status, identity, setAt, loggedAt, pushedAt);
    }

    /** What the handler does to the record found at `i`: the `$set`
        stays even when a later step raises. The `WriteError` outcome is
        kept for the `$push` as MongoDB defines it, but cannot occur here
        (`PreviousStatusReadMeansPushSucceeds`). */
    ghost predicate StatusChanged(apps0: seq<Doc>, changes0: seq<Doc>, apps: seq<Doc>, changes: seq<Doc>, r: Response,
                                  i: nat, appId: string, data: Doc, status: string, identity: string,
                                  setAt: int, loggedAt: int, pushedAt: int)
      requires i < |apps0|
    {
      var setDoc := apps0[i] + UpdateData(data, status, setAt);
      var shown := setDoc["_id" := Str(HexText(appId))];
      var previous := PreviousStatus(shown);
      if previous.Raise? then
        r == Failure(previous.exc) && apps == apps0[i := setDoc] && changes == changes0
      else if !IsValidObjectId(identity) then
        r == Failure(InvalidId) && apps == apps0[i := setDoc] && changes == changes0
      else
        changes == changes0 + [ChangeRecord(appId, previous.value, status, identity, NoteOf(data), loggedAt)] &&
        var pushed := PushHistory(setDoc, HistoryEntry(status, pushedAt, identity));
        if pushed.Raise? then r == Failure(WriteError) && apps == apps0[i := setDoc]
        else apps == apps0[i := pushed.value] && r == Reply(encodeIds, 200, UpdatedReply(shown))
    }

    /** A status change never answers with a failed `$push`. */
    lemma StatusChangeNeverFailsToWrite(apps0: seq<Doc>, changes0: seq<Doc>, apps: seq<Doc>, changes: seq<Doc>, r: Response,
                                        i: nat, appId: string, data: Doc, status: string, identity: string,
                                        setAt: int, loggedAt: int, pushedAt: int)
      requires i < |apps0|
      requires StatusChanged(apps0, changes0, apps, changes, r, i, appId, data, status, identity, setAt, loggedAt, pushedAt)
      ensures r != Failure(WriteError)
    {
      var setDoc := apps0[i] + UpdateData(data, status, setAt);
      var previous := PreviousStatus(setDoc["_id" := Str(HexText(appId))]);
      if previous.Ok? {
        PreviousStatusReadMeansPushSucceeds(setDoc, Str(HexText(appId)), HistoryEntry(status, pushedAt, identity));
      }
    }

    method ChangeStatusAt(i: nat, appId: string, data: Doc, status: string, identity: string, setAt: int, loggedAt: int, pushedAt: int)
      returns (r: Response)
      requires Valid() && i < |applications| && status in ValidStatuses
      modifies this`applications, this`statusChanges
      ensures Valid()
      ensures StatusChanged(old(applications), old(statusChanges), applications, statusChanges, r,
                            i, appId, data, status, identity, setAt, loggedAt, pushedAt)
    {
      var setDoc := applications[i] + UpdateData(data, status, setAt);
      SetKeepsWellFormed(applications[i], data, status, setAt);
      ReplaceKeepsApplicationsValid(applications, i, setDoc);
      applications := applications[i := setDoc];
      var shown := setDoc["_id" := Str(HexText(appId))];
      var previous := PreviousStatus(shown);
      if previous.Raise? {
        return Failure(previous.exc);
      }
      if !IsValidObjectId(identity) {
        return Failure(InvalidId);
      }
      statusChanges := statusChanges + [ChangeRecord(appId, previous.value, status, identity, NoteOf(data), loggedAt)];
      var pushed := PushHistory(setDoc, HistoryEntry(status, pushedAt, identity));
      if pushed.Raise? {
        return Failure(WriteError);
      }
      PushKeepsWellFormed(setDoc, HistoryEntry(status, pushedAt, identity));
      ReplaceKeepsApplicationsValid(old(applications)[i := setDoc], i, pushed.value);
      applications := applications[i := pushed.value];
      r := Reply(encodeIds, 200, UpdatedReply(shown));
    }
  }

  /** The entry pushed onto `status_history`. */
  function HistoryEntry(status: string, changedAt: int, identity: string): (e: Doc)
    ensures e.Keys == {"status", "changed_at", "changed_by"} && e["status"] == Str(status)
  {
    map["status" := Str(status), "changed_at" := Date(changedAt), "changed_by" := Oid(HexText(identity))]
  }

  /** The `$set` keeps the record well formed and its `_id`. */
  lemma SetKeepsWellFormed(doc: Doc, data: Doc, status: string, setAt: int)
    requires WellFormedApplication(doc) && status in ValidStatuses
    ensures WellFormedApplication(doc + UpdateData(data, status, setAt))
    ensures (doc + UpdateData(data, status, setAt))["_id"] == doc["_id"]
  {
  }

  /** The `$push` keeps the record well formed and its `_id`. */
  lemma PushKeepsWellFormed(doc: Doc, entry: Doc)
    requires WellFormedApplication(doc) && PushHistory(doc, entry).Ok?
    ensures WellFormedApplication(PushHistory(doc, entry).value)
    ensures PushHistory(doc, entry).value["_id"] == doc["_id"]
  {
  }

  /** Once a status update has pushed a history entry (whose `changed_by` is
      an ObjectId), the stock serialiser can no longer list that record: the
      listing raises and the reply is a 500. Writing ObjectIds as text
      lists it with a 200. */
  lemma {:induction false} ListingAfterUpdateFails(doc: Doc, status: string, changedAt: int, identity: string,
                                                   render: Value -> string)
    requires "_id" in doc && "status_history" !in doc
    ensures var d := PushHistory(doc, HistoryEntry(status, changedAt, identity)).value;
            Reply(false, 200, Arr(Listed([d], render))) == Failure(TypeError)
  {
    var entry := HistoryEntry(status, changedAt, identity);
    var d := PushHistory(doc, entry).value;
    var listed := Listed([d], render);
    var history := listed[0].fields["status_history"];
    assert history == Arr([Obj(entry)]);
    assert !Serializable(Obj(entry)) by {
      assert entry["changed_by"].Oid?;
    }
    assert !Serializable(history) by {
      assert history.items[0] == Obj(entry);
    }
    assert !Serializable(listed[0]);
    assert !Serializable(Arr(listed)) by {
      assert Arr(listed).items[0] == listed[0];
    }
  }

  /** For the same reason, once a record holds a history entry, every later
      status update of it answers 500 with the stock serialiser, after all
      three writes: the reply carries the record with its history. */
  lemma {:induction false} UpdateReplyAfterEarlierUpdate(shown: Doc, earlier: seq<Value>, status: string,
                                                         changedAt: int, identity: string)
    requires "status_history" in shown
    requires shown["status_history"] == Arr(earlier + [Obj(HistoryEntry(status, changedAt, identity))])
    ensures Reply(false, 200, UpdatedReply(shown)) == Failure(TypeError)
  {
    var entry := HistoryEntry(status, changedAt, identity);
    var history := shown["status_history"];
    assert !Serializable(Obj(entry)) by {
      assert entry["changed_by"].Oid?;
    }
    assert !Serializable(history) by {
      assert history.items[|earlier|] == Obj(entry);
    }
    assert !Serializable(Obj(shown));
    assert !Serializable(UpdatedReply(shown)) by {
      assert UpdatedReply(shown).fields["application"] == Obj(shown);
    }
  }

  /** With ObjectIds written as text, the same record lists with a 200,
      provided it holds no byte strings. */
  lemma {:induction false} ListingAfterUpdateCorrected(doc: Doc, status: string, changedAt: int, identity: string,
                                                       render: Value -> string)
    requires "_id" in doc && "status_history" !in doc
    requires forall k :: k in doc && k != "password" ==> NoBytes(doc[k])
    ensures var d := PushHistory(doc, HistoryEntry(status, changedAt, identity)).value;
            var r := Reply(true, 200, Arr(Listed([d], render)));
            r.Json? && r.status == 200
  {
    var entry := HistoryEntry(status, changedAt, identity);
    var d := PushHistory(doc, entry).value;
    var listed := Listed([d], render);
    var c := Cleaned(d, render);
    assert listed[0] == Obj(c);
    forall k | k in c ensures NoBytes(c[k]) {
      if k == "status_history" {
        assert c[k] == Arr([Obj(entry)]);
        assert NoBytes(Obj(entry));
      }
    }
    assert NoBytes(Arr(listed));
  }
}
