/** JavaScript values as the node handles them: data objects, optional
    parameters, results, and the few pieces of JavaScript string semantics
    the node depends on (truthiness and `String.prototype.length`). */
module DataObjects {

  /** An optional value: `None` stands for `undefined` (or a missing key). */
  datatype Option<+T> = None | Some(value: T) {
    /** The value, or `default` when undefined: `getNodeParameter(name, i, default)`. */
    function GetOr(default: T): T {
      match this
      case Some(v) => v
      case None => default
    }
  }

  /** The outcome of an operation that may throw. */
  datatype Result<+T, +E> = Success(value: T) | Failure(error: E)

  /** A JSON-like JavaScript value.  Numbers are IEEE doubles in the source;
      the node only passes them through, so they are modelled as reals.
      `Undefined` is a key that is present with the value `undefined`, and
      `Bytes` is a raw `ArrayBuffer` response body. */
  datatype Value =
    | Undefined
    | Null
    | Bool(b: bool)
    | Num(x: real)
    | Str(s: string)
    | Arr(elems: seq<Value>)
    | Obj(fields: map<string, Value>)
    | Bytes(data: seq<bv8>)

  /** `IDataObject`: a plain object from field names to values. */
  type DataObject = map<string, Value>

  /** JavaScript truthiness of an optional string: defined and not empty. */
  predicate TruthyString(s: Option<string>) {
    s.Some? && s.value != ""
  }

  /** Characters outside the Basic Multilingual Plane take two UTF-16 code units. */
  predicate IsBmp(c: char) {
    (c as int) < 0x1_0000
  }

  /** `s.length` in JavaScript: the number of UTF-16 code units of `s`. */
  function Utf16Length(s: string): (n: nat)
    ensures |s| <= n <= 2 * |s|
  {
    if s == [] then 0
    else (if IsBmp(s[0]) then 1 else 2) + Utf16Length(s[1..])
  }

  /** The JavaScript length agrees with the number of characters exactly
      when every character lies in the Basic Multilingual Plane. */
  lemma {:induction false} Utf16LengthIsCharCount(s: string)
    ensures Utf16Length(s) == |s| <==> forall i :: 0 <= i < |s| ==> IsBmp(s[i])
  {
    if s != [] {
      Utf16LengthIsCharCount(s[1..]);
      if forall i :: 0 <= i < |s| ==> IsBmp(s[i]) {
        assert forall i :: 0 <= i < |s[1..]| ==> IsBmp(s[1..][i]) by {
          forall i | 0 <= i < |s[1..]| ensures IsBmp(s[1..][i]) {
            assert s[1..][i] == s[i + 1];
          }
        }
      } else if IsBmp(s[0]) {
        var k :| 0 <= k < |s| && !IsBmp(s[k]);
        assert k > 0 && s[1..][k - 1] == s[k];
      }
    }
  }
}
