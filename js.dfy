/** The small slice of JavaScript semantics the handler relies on: values that
    may be `undefined`, truthiness of strings, template-literal interpolation,
    `String.prototype.split` with a limit, `Array.prototype.toString`,
    `String.prototype.toUpperCase` on ASCII text and `Error.prototype.toString`. */
module Js {

  /** A value that may be JavaScript's `undefined`: `None` is `undefined`. */
  datatype Option<+T> = None | Some(value: T)

  /** The outcome of an expression that may throw. */
  datatype Result<+T> = Ok(value: T) | Thrown(error: Error)

  /** A thrown error object, reduced to its `name` and `message` properties. */
  datatype Error = Error(name: string, message: string)

  /** A `TypeError` as the runtime throws it for a read of, or a destructuring
      of, `undefined`. */
  function TypeError(message: string): Error {
    Error("TypeError", message)
  }

  /** JavaScript truthiness of a string-or-undefined: `undefined` and `""` are falsy. */
  predicate Truthy(v: Option<string>) {
    v.Some? && v.value != ""
  }

  /** `a || b`: `a` when it is truthy, otherwise `b`. */
  function Or(a: Option<string>, b: Option<string>): (r: Option<string>)
    ensures Truthy(r) ==> Truthy(a) || Truthy(b)
    ensures Truthy(a) ==> r == a
    ensures !Truthy(a) ==> r == b
  {
    if Truthy(a) then a else b
  }

  /** `${v}` in a template literal: `undefined` is rendered as the text "undefined". */
  function Render(v: Option<string>): string {
    match v
    case Some(s) => s
    case None => "undefined"
  }

  /** `Error.prototype.toString`: the name and the message joined by ": ",
      or whichever of the two is non-empty. */
  function ErrorToString(e: Error): (r: string)
    ensures e.message == "" ==> r == e.name
    ensures e.name == "" ==> r == e.message
    ensures e.name != "" && e.message != "" ==>
              && |r| == |e.name| + 2 + |e.message|
              && r[..|e.name|] == e.name
              && r[|e.name|..|e.name| + 2] == ": "
              && r[|e.name| + 2..] == e.message
  {
    if e.name == "" then e.message
    else if e.message == "" then e.name
    else e.name + ": " + e.message
  }

  /** `parts.join(sep)`; `Array.prototype.toString` is `join(",")`. */
  function Join(parts: seq<string>, sep: char): string
    decreases |parts|
  {
    if |parts| == 0 then ""
    else if |parts| == 1 then parts[0]
    else parts[0] + [sep] + Join(parts[1..], sep)
  }

  /** `s.split(sep)` for a one-character separator: the maximal pieces of `s`
      free of `sep`, in order, so that joining them with `sep` gives `s` back. */
  function Split(s: string, sep: char): (parts: seq<string>)
    ensures |parts| >= 1
    ensures forall i :: 0 <= i < |parts| ==> sep !in parts[i]
    ensures Join(parts, sep) == s
    decreases |s|
  {
    if s == [] then [""]
    else
      var rest := Split(s[1..], sep);
      if s[0] == sep then [""] + rest
      else [[s[0]] + rest[0]] + rest[1..]
  }

  /** Splitting a join of separator-free pieces gives the pieces back: `Split`
      and `Join` are inverse on those. */
  lemma {:induction false} SplitJoin(parts: seq<string>, sep: char)
    requires |parts| >= 1
    requires forall i :: 0 <= i < |parts| ==> sep !in parts[i]
    ensures Split(Join(parts, sep), sep) == parts
    decreases |parts|, |parts[0]|
  {
    if |parts| == 1 {
      SplitFree(parts[0], sep);
    } else if parts[0] == "" {
      var tail := parts[1..];
      SplitJoin(tail, sep);
      assert Join(parts, sep) == [sep] + Join(tail, sep);
      assert Join(parts, sep)[1..] == Join(tail, sep);
    } else {
      var first := parts[0];
      var shorter := [first[1..]] + parts[1..];
      assert forall i :: 0 <= i < |shorter| ==> sep !in shorter[i] by {
        forall i | 0 <= i < |shorter| ensures sep !in shorter[i] {
          if i == 0 {
            assert forall k :: 0 <= k < |first[1..]| ==> first[1..][k] == first[k + 1];
          } else {
            assert shorter[i] == parts[i];
          }
        }
      }
      SplitJoin(shorter, sep);
      assert first == [first[0]] + first[1..];
      assert shorter[1..] == parts[1..];
      assert Join(parts, sep) == [first[0]] + Join(shorter, sep);
      assert Join(parts, sep)[1..] == Join(shorter, sep);
      assert first[0] != sep by { assert first[0] == parts[0][0]; }
    }
  }

  /** A string without the separator splits into itself alone. */
  lemma {:induction false} SplitFree(s: string, sep: char)
    requires sep !in s
    ensures Split(s, sep) == [s]
    decreases |s|
  {
    if s != [] {
      assert sep !in s[1..] by {
        assert forall k :: 0 <= k < |s[1..]| ==> s[1..][k] == s[k + 1];
      }
      SplitFree(s[1..], sep);
      assert s == [s[0]] + s[1..];
    }
  }

  /** `s.split(sep, limit)`: the first `limit` pieces of `s.split(sep)`. */
  function SplitLimit(s: string, sep: char, limit: nat): (parts: seq<string>)
    ensures |parts| == if limit < |Split(s, sep)| then limit else |Split(s, sep)|
    ensures parts <= Split(s, sep)
  {
    var all := Split(s, sep);
    if limit < |all| then all[..limit] else all
  }

  /** `String.prototype.toUpperCase` on one character, for the ASCII letters. */
  function UpperChar(c: char): char {
    if 'a' <= c <= 'z' then (c as int - 32) as char else c
  }

  /** `s.toUpperCase()`: each ASCII lower-case letter mapped to its capital,
      every other character kept. */
  function ToUpperCase(s: string): (r: string)
    ensures |r| == |s|
    ensures forall i :: 0 <= i < |s| ==> r[i] == UpperChar(s[i])
    decreases |s|
  {
    if s == [] then [] else [UpperChar(s[0])] + ToUpperCase(s[1..])
  }

  /** Upper-casing leaves no ASCII lower-case letter, changes nothing but
      such letters, and is idempotent. */
  lemma {:induction false} ToUpperCaseIdempotent(s: string)
    ensures forall i :: 0 <= i < |s| ==> !('a' <= ToUpperCase(s)[i] <= 'z')
    ensures forall i :: 0 <= i < |s| && ToUpperCase(s)[i] != s[i] ==> 'a' <= s[i] <= 'z'
    ensures ToUpperCase(ToUpperCase(s)) == ToUpperCase(s)
  {
    var u := ToUpperCase(s);
    var uu := ToUpperCase(u);
    forall i | 0 <= i < |s| ensures uu[i] == u[i] {
      assert u[i] == UpperChar(s[i]);
      assert uu[i] == UpperChar(u[i]);
    }
  }
}
