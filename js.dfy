/**
 * The handful of JavaScript built-in behaviours that pdf2md's core relies on:
 * truthiness of an optional string, `Array.prototype.filter(Boolean)`,
 * `Array.prototype.includes`, `String.prototype.indexOf` and `replace` with a
 * string pattern, property lookup on a plain object, and thrown values.
 */
module Js {

  datatype Option<+T> = None | Some(value: T)

  datatype Result<+R, +E> = Success(value: R) | Failure(error: E)

  /**
   * A thrown value. `isError` says whether it is an `Error` instance; `code`
   * and `syscall` are `Some` exactly when the value carries that property.
   */
  datatype Thrown = Thrown(isError: bool, code: Option<string>, syscall: Option<string>, message: string)

  /** A value of type `string | null | undefined` is truthy iff it is a non-empty string. */
  predicate Truthy(v: Option<string>) {
    v.Some? && v.value != ""
  }

  /**
   * `xs.filter(Boolean)` over values of type `string | false | undefined`
   * (`None` stands for the falsy non-strings): keeps the non-empty strings in order.
   */
  function Truthies(xs: seq<Option<string>>): (r: seq<string>)
    ensures |r| <= |xs|
    ensures forall s :: s in r ==> s != "" && Some(s) in xs
  {
    if xs == [] then []
    else
      var init, last := xs[..|xs| - 1], xs[|xs| - 1];
      assert xs == init + [last];
      Truthies(init) + (if Truthy(last) then [last.value] else [])
  }

  lemma {:induction false} TruthiesAppend(xs: seq<Option<string>>, ys: seq<Option<string>>)
    ensures Truthies(xs + ys) == Truthies(xs) + Truthies(ys)
    decreases |ys|
  {
    if ys == [] {
      assert xs + ys == xs;
    } else {
      var init := ys[..|ys| - 1];
      assert (xs + ys)[..|xs + ys| - 1] == xs + init;
      TruthiesAppend(xs, init);
    }
  }

  /** The filter keeps a string exactly when it is non-empty and present. */
  lemma {:induction false} TruthiesMembership(xs: seq<Option<string>>, s: string)
    ensures s in Truthies(xs) <==> s != "" && Some(s) in xs
    decreases |xs|
  {
    if xs != [] {
      var init, last := xs[..|xs| - 1], xs[|xs| - 1];
      assert xs == init + [last];
      TruthiesMembership(init, s);
    }
  }

  /** `list.includes(x)` on an array of strings: strict equality with some element. */
  function Includes(list: seq<string>, x: string): (b: bool)
    ensures b <==> exists i :: 0 <= i < |list| && list[i] == x
  {
    if list == [] then false
    else if list[0] == x then true
    else
      var found := Includes(list[1..], x);
      assert found ==> exists i :: 0 <= i < |list| && list[i] == x by {
        if found {
          var j :| 0 <= j < |list[1..]| && list[1..][j] == x;
          assert list[j + 1] == x;
        }
      }
      found
  }

  /** `pat` occurs in `s` starting at index `j`. */
  predicate OccursAt(s: string, pat: string, j: int) {
    0 <= j && j + |pat| <= |s| && s[j..j + |pat|] == pat
  }

  /**
   * `s.indexOf(pat, from)`, with `None` for the result -1, for a start position
   * within the string (JavaScript clamps a larger one to the length).
   */
  function IndexOf(s: string, pat: string, from: nat): (r: Option<nat>)
    requires from <= |s|
    ensures r.Some? ==> from <= r.value && OccursAt(s, pat, r.value)
    ensures r.Some? ==> forall j :: from <= j < r.value ==> !OccursAt(s, pat, j)
    ensures r.None? ==> forall j :: from <= j ==> !OccursAt(s, pat, j)
    decreases |s| - from
  {
    if from + |pat| > |s| then None
    else if s[from..from + |pat|] == pat then Some(from)
    else IndexOf(s, pat, from + 1)
  }

  /**
   * `s.replace(pat, rep)` with a string pattern and a replacement that holds no
   * `$` pattern: only the first occurrence of `pat` is replaced.
   */
  function ReplaceFirst(s: string, pat: string, rep: string): string {
    match IndexOf(s, pat, 0)
    case None => s
    case Some(i) => s[..i] + rep + s[i + |pat|..]
  }

  /** The names a plain object inherits from `Object.prototype`. */
  const OBJECT_PROTOTYPE_MEMBERS: set<string> := {
    "constructor", "hasOwnProperty", "isPrototypeOf", "propertyIsEnumerable",
    "toLocaleString", "toString", "valueOf", "__proto__",
    "__defineGetter__", "__defineSetter__", "__lookupGetter__", "__lookupSetter__"
  }

  /**
   * `typeof obj[key] !== 'undefined'` for a plain object whose own properties are
   * the string entries of `obj`: own keys and inherited members are both defined.
   * Keys compare case-sensitively, as `process.env` does on POSIX systems.
   */
  predicate Defined(obj: map<string, string>, key: string) {
    key in obj || key in OBJECT_PROTOTYPE_MEMBERS
  }

  /** `obj.key` for a key that names no inherited member; keys compare case-sensitively. */
  function Get(obj: map<string, string>, key: string): Option<string> {
    if key in obj then Some(obj[key]) else None
  }
}
