/** Shared vocabulary: optional values, results carrying the exceptions the
    certificate code raises, and the dynamically typed values found in the
    course configuration dictionaries (YAML) that the renderers read. */
module Values {

  datatype Option<T> = None | Some(value: T)

  /** The Python exceptions the modelled code raises or lets propagate. */
  datatype Error =
    | KeyError(key: string)
    | ValueError(message: string)
    | TypeError(message: string)
    | AttributeError(name: string)
    | ZeroDivisionError
    | InvalidReturnCode

  datatype Result<T> = Ok(value: T) | Err(error: Error) {
    predicate IsFailure() { Err? }
    function PropagateFailure<U>(): Result<U>
      requires Err?
    {
      Err(error)
    }
    function Extract(): T
      requires Ok?
    {
      value
    }
  }

  /** Completion of a procedure that returns nothing. */
  datatype Outcome = Done | Failed(error: Error)

  /** A value stored in a configuration dictionary. */
  datatype Value = VNone | VBool(b: bool) | VNum(n: real) | VStr(s: string)

  type Dict = map<string, Value>

  /** Python truthiness of a configuration value. */
  predicate Truthy(v: Value) {
    match v
    case VNone => false
    case VBool(b) => b
    case VNum(n) => n != 0.0
    case VStr(s) => s != ""
  }

  /** `d.get(k)`: the stored value, or None. */
  function Get(d: Dict, k: string): (v: Value)
    ensures k !in d ==> v == VNone
  {
    if k in d then d[k] else VNone
  }

  /** Python's `int(x)` on a float: truncation toward zero. */
  function Truncate(x: real): (n: int)
    ensures 0.0 <= x ==> 0 <= n && n as real <= x < n as real + 1.0
    ensures x < 0.0 ==> n <= 0 && n as real - 1.0 < x <= n as real
  {
    if x >= 0.0 then x.Floor else -((-x).Floor)
  }

  /** A value used as a number; anything else is a type error. */
  function AsNum(v: Value, k: string): (r: Result<real>)
    ensures r.Ok? <==> v.VNum?
  {
    if v.VNum? then Ok(v.n) else Err(TypeError(k))
  }

  /** A value used as text; anything else is a type error. */
  function AsStr(v: Value, k: string): (r: Result<string>)
    ensures r.Ok? <==> v.VStr?
  {
    if v.VStr? then Ok(v.s) else Err(TypeError(k))
  }

  /** `d[k]` used as a number: a missing key raises KeyError. */
  function NumAt(d: Dict, k: string): (r: Result<real>)
    ensures k !in d ==> r == Err(KeyError(k))
    ensures k in d && d[k].VNum? ==> r == Ok(d[k].n)
  {
    if k in d then AsNum(d[k], k) else Err(KeyError(k))
  }

  /** `d.get(k, default)` used as a number. */
  function NumOr(d: Dict, k: string, default: real): (r: Result<real>)
    ensures k !in d ==> r == Ok(default)
    ensures k in d && d[k].VNum? ==> r == Ok(d[k].n)
  {
    if k in d then AsNum(d[k], k) else Ok(default)
  }

  /** `d.get(k, default)` used as text. */
  function StrOr(d: Dict, k: string, default: string): (r: Result<string>)
    ensures k !in d ==> r == Ok(default)
    ensures k in d && d[k].VStr? ==> r == Ok(d[k].s)
  {
    if k in d then AsStr(d[k], k) else Ok(default)
  }

  /** ASCII upper-casing of one character. */
  function UpperChar(c: char): char {
    if 'a' <= c <= 'z' then (c as int - 32) as char else c
  }

  /** ASCII lower-casing of one character. */
  function LowerChar(c: char): char {
    if 'A' <= c <= 'Z' then (c as int + 32) as char else c
  }

  /** `s.upper()` on the ASCII letters of `s`. */
  function Upper(s: string): (r: string)
    ensures |r| == |s|
    ensures forall i :: 0 <= i < |s| ==> r[i] == UpperChar(s[i])
  {
    if s == [] then [] else [UpperChar(s[0])] + Upper(s[1..])
  }

  /** `s.lower()` on the ASCII letters of `s`. */
  function Lower(s: string): (r: string)
    ensures |r| == |s|
    ensures forall i :: 0 <= i < |s| ==> r[i] == LowerChar(s[i])
  {
    if s == [] then [] else [LowerChar(s[0])] + Lower(s[1..])
  }

  /** `needle in haystack` for strings. */
  predicate Contains(haystack: string, needle: string)
    decreases |haystack|
  {
    needle <= haystack || (haystack != [] && Contains(haystack[1..], needle))
  }

  /** `a or b`: Python's `or` on two strings. */
  function Or(a: string, b: string): string {
    if a != "" then a else b
  }

  /** The part of a path after its last '/', as `os.path.basename`. */
  function Basename(p: string): (r: string)
    ensures '/' !in r
    ensures '/' !in p ==> r == p
    ensures |p| > 0 && p[|p| - 1] != '/' ==> |r| > 0
    decreases |p|
  {
    if p == [] then []
    else if p[|p| - 1] == '/' then []
    else Basename(p[..|p| - 1]) + [p[|p| - 1]]
  }

  /** Two-argument POSIX `os.path.join`: an absolute second part wins. */
  function PathJoin(a: string, b: string): (r: string)
    ensures |b| > 0 && b[0] == '/' ==> r == b
    ensures (|b| == 0 || b[0] != '/') ==> |r| >= |b| && r[|r| - |b|..] == b
  {
    if |b| > 0 && b[0] == '/' then b
    else if a == [] || a[|a| - 1] == '/' then a + b
    else a + "/" + b
  }

  /** The basename of a joined path is the basename of its last part. */
  lemma {:induction false} BasenameOfSuffix(a: string, b: string)
    requires |b| > 0 && '/' !in b
    ensures Basename(a + "/" + b) == b
    decreases |b|
  {
    var p := a + "/" + b;
    if |b| == 1 {
      assert p[..|p| - 1] == a + "/";
      assert Basename(a + "/") == [];
    } else {
      var b' := b[..|b| - 1];
      assert p[..|p| - 1] == a + "/" + b';
      assert '/' !in b' by {
        forall i | 0 <= i < |b'| ensures b'[i] != '/' { assert b'[i] == b[i]; }
      }
      BasenameOfSuffix(a, b');
      assert b' + [b[|b| - 1]] == b;
    }
  }

  /** Concatenation is associative; stated once so that proofs about long
      call logs and strings can use it without unfolding sequences. */
  lemma AppendAssoc<T>(a: seq<T>, b: seq<T>, c: seq<T>)
    ensures (a + b) + c == a + (b + c)
  {
  }
}
