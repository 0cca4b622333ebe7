/** Documents as the Flask server sees them: JSON values plus the BSON
    values MongoDB adds (ObjectIds, dates, byte strings), Python's
    exceptions, and the serialiser that turns a document into a reply. */
module Json {
  import opened Common

  datatype Value =
    | Null
    | Bool(b: bool)
    | Num(n: real)
    | Str(s: string)
    | Arr(items: seq<Value>)
    | Obj(fields: map<string, Value>)
    | Oid(hex: string)
    | Date(time: int)
    | Bin(bytes: seq<int>)

  /** A stored document: a field map. */
  type Doc = map<string, Value>

  /** The exceptions the handlers can raise; each one becomes a 500 reply. */
  datatype Exception = BadRequest | TypeError | KeyError | IndexError | AttributeError | InvalidId | DuplicateKey | WriteError | RuntimeError

  datatype Try<T> = Ok(value: T) | Raise(exc: Exception) {
    predicate IsFailure() {
      Raise?
    }

    function PropagateFailure<U>(): Try<U>
      requires Raise?
    {
      Raise(exc)
    }

    function Extract(): T
      requires Ok?
    {
      value
    }
  }

  /** What a handler returns: a serialised reply, or the exception the
      handler's `except Exception` turns into a 500 reply. */
  datatype Response = Json(status: int, body: Value) | Failure(exc: Exception)

  function StatusCode(r: Response): (code: int)
    ensures r.Failure? ==> code == 500
  {
    if r.Json? then r.status else 500
  }

  /** Python truthiness of a JSON value (`not data`). */
  predicate Falsy(v: Value) {
    v == Null || v == Bool(false) || v == Num(0.0) || v == Str("") || v == Arr([]) || v == Obj(map[])
  }

  /** `key` occurs somewhere in `text`. */
  predicate IsSubstring(key: string, text: string)
    decreases |text|
  {
    if |key| > |text| then false
    else text[..|key|] == key || (text != [] && IsSubstring(key, text[1..]))
  }

  /** Python's `key in data`: a key of a dict, an element of a list, a
      substring of a string; on anything else `in` raises TypeError. */
  function Contains(data: Value, key: string): (r: Try<bool>)
    ensures data.Obj? ==> r == Ok(key in data.fields)
    ensures r.Raise? <==> !(data.Obj? || data.Arr? || data.Str?)
  {
    match data
    case Obj(m) => Ok(key in m)
    case Arr(items) => Ok(Str(key) in items)
    case Str(t) => Ok(IsSubstring(key, t))
    case _ => Raise(TypeError)
  }

  /** Python's `v[key]` with a string key: a dict lookup that raises
      KeyError on a missing key; any other value raises TypeError. */
  function Subscript(v: Value, key: string): (r: Try<Value>)
    ensures r.Ok? <==> v.Obj? && key in v.fields
    ensures r.Ok? ==> r.value == v.fields[key]
    ensures v.Obj? && key !in v.fields ==> r == Raise(KeyError)
    ensures !v.Obj? ==> r == Raise(TypeError)
  {
    if !v.Obj? then Raise(TypeError)
    else if key in v.fields then Ok(v.fields[key])
    else Raise(KeyError)
  }

  /** Python's `v.get(key, default)`: only a dict has `get`. */
  function GetOr(v: Value, key: string, default: Value): (r: Try<Value>)
    ensures r.Ok? <==> v.Obj?
    ensures v.Obj? && key in v.fields ==> r.value == v.fields[key]
    ensures v.Obj? && key !in v.fields ==> r.value == default
    ensures !v.Obj? ==> r == Raise(AttributeError)
  {
    if !v.Obj? then Raise(AttributeError)
    else if key in v.fields then Ok(v.fields[key])
    else Ok(default)
  }

  /** `all(k in data for k in keys)`, stopping at the first missing key. */
  function AllPresent(data: Value, keys: seq<string>): (r: Try<bool>)
    ensures keys != [] ==> (r.Raise? <==> !(data.Obj? || data.Arr? || data.Str?))
    ensures data.Obj? ==> r == Ok(forall i :: 0 <= i < |keys| ==> keys[i] in data.fields)
    ensures r.Raise? ==> r.exc == TypeError
  {
    if keys == [] then Ok(true)
    else
      match Contains(data, keys[0])
      case Raise(e) => Raise(e)
      case Ok(b) => if !b then Ok(false) else AllPresent(data, keys[1..])
  }

  /** The error body every handler uses: `{"error": message}`. */
  function ErrorBody(message: string): Value {
    Obj(map["error" := Str(message)])
  }

  /** Values Flask's default encoder can write: everything but BSON
      ObjectIds and byte strings, at any depth. */
  predicate Serializable(v: Value) {
    match v
    case Oid(_) => false
    case Bin(_) => false
    case Arr(items) => forall i :: 0 <= i < |items| ==> Serializable(items[i])
    case Obj(m) => forall k :: k in m ==> Serializable(m[k])
    case _ => true
  }

  /** `jsonify(body), status`: raises TypeError on a value it cannot write. */
  function Jsonify(status: int, body: Value): (r: Response)
    ensures r.Json? <==> Serializable(body)
    ensures r.Json? ==> r == Json(status, body)
    ensures r.Failure? ==> r.exc == TypeError
  {
    if Serializable(body) then Json(status, body) else Failure(TypeError)
  }

  /** No byte string anywhere inside. */
  predicate NoBytes(v: Value) {
    match v
    case Bin(_) => false
    case Arr(items) => forall i :: 0 <= i < |items| ==> NoBytes(items[i])
    case Obj(m) => forall k :: k in m ==> NoBytes(m[k])
    case _ => true
  }

  /** Every ObjectId written as its hex string. */
  function EncodeIds(v: Value): (w: Value)
    ensures NoBytes(v) ==> Serializable(w)
  {
    match v
    case Oid(h) => Str(h)
    case Arr(items) => Arr(seq(|items|, i requires 0 <= i < |items| => EncodeIds(items[i])))
    case Obj(m) => Obj(map k | k in m :: EncodeIds(m[k]))
    case _ => v
  }

  /** The serialiser with ObjectIds written as their hex strings. */
  function JsonifyCorrected(status: int, body: Value): (r: Response)
    ensures NoBytes(body) ==> r == Json(status, EncodeIds(body))
    ensures Serializable(body) ==> r == Json(status, body)
    ensures r.Json? ==> r.status == status
  {
    ObjectIdFreeUnchanged(body);
    Jsonify(status, EncodeIds(body))
  }

  /** Encoding leaves a value without ObjectIds or bytes as it is. */
  lemma {:induction false} ObjectIdFreeUnchanged(v: Value)
    ensures Serializable(v) ==> EncodeIds(v) == v
  {
    match v
    case Arr(items) =>
      if Serializable(v) {
        forall i | 0 <= i < |items| ensures EncodeIds(items[i]) == items[i] {
          ObjectIdFreeUnchanged(items[i]);
        }
      }
    case Obj(m) =>
      if Serializable(v) {
        forall k | k in m ensures EncodeIds(m[k]) == m[k] {
          ObjectIdFreeUnchanged(m[k]);
        }
      }
    case _ =>
  }
}
