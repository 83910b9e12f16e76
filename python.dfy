/**
 * The parts of the Python runtime that the modelled code depends on:
 * JSON-compatible values and their truthiness, the exceptions the code
 * raises or catches, and the string and list operations whose edge cases
 * matter (slicing with a possibly negative bound, `str.rstrip`,
 * `str.replace`).
 */
module Python {

  datatype Option<T> = None | Some(value: T)

  /** A call that either returns a value or raises an exception. */
  datatype Result<T, E> = Ok(value: T) | Err(error: E)

  /** A JSON-compatible Python value: what `json.loads` produces and `json.dumps` accepts. */
  datatype Value =
    | JNull
    | JBool(b: bool)
    | JInt(i: int)
    | JFloat(r: real)
    | JStr(s: string)
    | JArr(items: seq<Value>)
    | JObj(fields: map<string, Value>)

  /** The exceptions that the modelled code raises, propagates or catches. */
  datatype Exception =
    | TypeError(message: string)
    | AttributeError(message: string)
    | ClientError(code: string)        // botocore's ClientError, identified by its error code
    | HttpError(statusCode: int)       // raised by raise_for_status for 4xx and 5xx replies
    | TransportError(reason: string)   // connection failure or timeout of an HTTP request
    | JsonDecodeError                  // a reply body that is not JSON

  /** The empty dict `{}`. */
  const EmptyObject: Value := JObj(map[])

  /** Python truthiness: None, False, 0, 0.0, "", [] and {} are false, everything else true. */
  predicate Truthy(v: Value) {
    match v
    case JNull => false
    case JBool(b) => b
    case JInt(i) => i != 0
    case JFloat(r) => r != 0.0
    case JStr(s) => s != ""
    case JArr(items) => items != []
    case JObj(fields) => fields != map[]
  }

  /** Truthiness of an optional string, as in `if auth_token:`. */
  predicate TruthyText(s: Option<string>) {
    s.Some? && s.value != ""
  }

  /** `m.get(key, default)` on a dict. */
  function Get(m: map<string, Value>, key: string, default: Value): (r: Value)
    ensures key in m ==> r == m[key]
    ensures key !in m ==> r == default
  {
    if key in m then m[key] else default
  }

  /** `x or {}` for an optional argument that defaults to None. */
  function OrEmpty(x: Option<Value>): (r: Value)
    ensures Truthy(r) ==> x == Some(r)
    ensures x.Some? && Truthy(x.value) ==> r == x.value
    ensures !Truthy(r) ==> r == EmptyObject
  {
    if x.Some? && Truthy(x.value) then x.value else EmptyObject
  }

  /** The slice `s[:stop]`, where a negative `stop` counts from the end. */
  function SliceTo<T>(s: seq<T>, stop: int): (r: seq<T>)
    ensures r <= s
    ensures 0 <= stop ==> |r| == if stop < |s| then stop else |s|
    ensures stop < 0 ==> |r| == if 0 < |s| + stop then |s| + stop else 0
  {
    if 0 <= stop then
      (if stop < |s| then s[..stop] else s)
    else
      (if 0 < |s| + stop then s[..|s| + stop] else [])
  }

  /** `s.rstrip(c)`: `s` without its maximal run of trailing `c` characters. */
  function RStrip(s: string, c: char): (r: string)
    ensures r <= s
    ensures forall i :: |r| <= i < |s| ==> s[i] == c
    ensures r == [] || r[|r| - 1] != c
  {
    if |s| > 0 && s[|s| - 1] == c then RStrip(s[..|s| - 1], c) else s
  }

  /** Whether `pat` occurs somewhere in `s`. */
  predicate Occurs(pat: string, s: string)
    decreases |s|
  {
    pat <= s || (|s| > 0 && Occurs(pat, s[1..]))
  }

  /** `s.replace(pat, rep)`: every non-overlapping occurrence of `pat`, scanning from the left, replaced by `rep`. */
  function Replace(s: string, pat: string, rep: string): string
    requires |pat| > 0
    decreases |s|
  {
    if |s| == 0 then []
    else if pat <= s then rep + Replace(s[|pat|..], pat, rep)
    else [s[0]] + Replace(s[1..], pat, rep)
  }

  /** Replacing a pattern that does not occur changes nothing. */
  lemma {:induction false} ReplaceAbsent(s: string, pat: string, rep: string)
    requires |pat| > 0 && !Occurs(pat, s)
    ensures Replace(s, pat, rep) == s
    decreases |s|
  {
    if |s| > 0 {
      ReplaceAbsent(s[1..], pat, rep);
      assert [s[0]] + s[1..] == s;
    }
  }

  /** A string that begins with the pattern and has no other occurrence of it gets only its leading occurrence replaced. */
  lemma ReplaceLeading(t: string, pat: string, rep: string)
    requires |pat| > 0 && !Occurs(pat, t)
    ensures Replace(pat + t, pat, rep) == rep + t
  {
    var s := pat + t;
    assert pat <= s;
    assert s[|pat|..] == t;
    ReplaceAbsent(t, pat, rep);
  }

  /** Replacing by something at least as long never shortens a string. */
  lemma {:induction false} ReplaceLength(s: string, pat: string, rep: string)
    requires 0 < |pat| <= |rep|
    ensures |Replace(s, pat, rep)| >= |s|
    decreases |s|
  {
    if |s| > 0 {
      if pat <= s {
        ReplaceLength(s[|pat|..], pat, rep);
      } else {
        ReplaceLength(s[1..], pat, rep);
      }
    }
  }
}
