/** JavaScript values and string operations as the page code uses them. */
module Js {

  datatype Option<+T> = None | Some(value: T)

  /** A property of a JavaScript object as the page code reads it: not there at all
      (`undefined`), `null`, or a value. Strict (in)equality on such a property is
      equality of `Field` values. */
  datatype Field<+T> = Undefined | Null | Defined(value: T)

  /** A JSON value that is either `null` or present, read as a property. */
  function Nullable<T>(o: Option<T>): Field<T>
  {
    match o
    case None => Null
    case Some(v) => Defined(v)
  }

  /** JavaScript truthiness of a string property: present and non-empty. */
  predicate Truthy(s: Field<string>)
  {
    s.Defined? && s.value != ""
  }

  /** Truthiness of a nullable string from the GitHub API. */
  predicate TruthyOption(s: Option<string>)
  {
    s.Some? && s.value != ""
  }

  /** `a || b` on two string properties. */
  function Or(a: Field<string>, b: Field<string>): Field<string>
  {
    if Truthy(a) then a else b
  }

  /** `a || fallback` where the fallback is a string literal. */
  function OrElse(a: Field<string>, fallback: string): string
  {
    if Truthy(a) then a.value else fallback
  }

  /** `a || fallback` on a nullable string from the GitHub API. */
  function OptionOrElse(a: Option<string>, fallback: string): string
  {
    if TruthyOption(a) then a.value else fallback
  }

  lemma OrElseIsAFallbackChain(a: Field<string>, b: Field<string>, fallback: string)
    ensures OrElse(Or(a, b), fallback) == OrElse(a, OrElse(b, fallback))
    ensures fallback != "" ==> OrElse(Or(a, b), fallback) != ""
  {
  }

  /** `String.prototype.toLowerCase` on one character, ASCII letters only. */
  function LowerChar(c: char): char
  {
    if 'A' <= c <= 'Z' then (c as int + 32) as char else c
  }

  /** `String.prototype.toLowerCase`, ASCII letters only. */
  function Lower(s: string): (r: string)
    ensures |r| == |s|
  {
    if s == [] then [] else [LowerChar(s[0])] + Lower(s[1..])
  }

  lemma {:induction false} LowerAt(s: string, i: nat)
    requires i < |s|
    ensures Lower(s)[i] == LowerChar(s[i])
  {
    if i > 0 {
      LowerAt(s[1..], i - 1);
    }
  }

  /** Lower-casing twice is lower-casing once. */
  lemma {:induction false} LowerIdempotent(s: string)
    ensures Lower(Lower(s)) == Lower(s)
  {
    if s != [] {
      LowerIdempotent(s[1..]);
      assert Lower(s)[1..] == Lower(s[1..]);
    }
  }

  predicate StartsWith(s: string, prefix: string)
  {
    |prefix| <= |s| && s[..|prefix|] == prefix
  }

  /** `String.prototype.includes`: `sub` occurs somewhere in `s`. */
  predicate Includes(s: string, sub: string)
    decreases |s|
  {
    StartsWith(s, sub) || (s != [] && Includes(s[1..], sub))
  }

  /** `sub` occurs in `s` at position `i`. */
  predicate OccursAt(s: string, sub: string, i: int)
  {
    0 <= i && i + |sub| <= |s| && s[i..i + |sub|] == sub
  }

  /** `Includes` holds exactly when there is a position at which `sub` occurs. */
  lemma {:induction false} IncludesIffOccurs(s: string, sub: string)
    ensures Includes(s, sub) <==> exists i :: OccursAt(s, sub, i)
    decreases |s|
  {
    if s == [] {
      if sub == [] {
        assert OccursAt(s, sub, 0);
      }
    } else {
      IncludesIffOccurs(s[1..], sub);
      if StartsWith(s, sub) {
        assert OccursAt(s, sub, 0);
      }
      forall i | OccursAt(s[1..], sub, i)
        ensures OccursAt(s, sub, i + 1)
      {
        assert s[1..][i..i + |sub|] == s[i + 1..i + 1 + |sub|];
      }
      forall i | OccursAt(s, sub, i) && i > 0
        ensures OccursAt(s[1..], sub, i - 1)
      {
        assert s[1..][i - 1..i - 1 + |sub|] == s[i..i + |sub|];
      }
    }
  }
}
