/** JSON trees as Python's `json` module loads them, and case-insensitive text. */
module Json {
  import opened Common

  datatype Json =
    | Null
    | Bool(flag: bool)
    | Num(number: int)
    | Str(text: string)
    | Arr(items: seq<Json>)
    | Obj(fields: map<string, Json>)

  // ----- case folding -----

  function AsciiLower(c: char): char {
    if 'A' <= c <= 'Z' then c - 'A' + 'a' else c
  }

  ghost predicate LowersAscii(f: char -> string) {
    forall c: char :: c as int < 128 ==> f(c) == [AsciiLower(c)]
  }

  /**
    `str.casefold` maps each code point on its own; on ASCII it lower-cases.
    The mapping of the other code points is left open.
   */
  type CaseFold = f: char -> string | LowersAscii(f) witness (c: char) => [AsciiLower(c)]

  function Fold(s: string, fold: CaseFold): string {
    if s == "" then "" else fold(s[0]) + Fold(s[1..], fold)
  }

  predicate PlainLower(s: string) {
    forall i :: 0 <= i < |s| ==> s[i] as int < 128 && !('A' <= s[i] <= 'Z')
  }

  lemma {:induction false} FoldFixesPlainLower(s: string, fold: CaseFold)
    requires PlainLower(s)
    ensures Fold(s, fold) == s
  {
    if s != "" {
      FoldFixesPlainLower(s[1..], fold);
      assert fold(s[0]) == [s[0]];
    }
  }

  /** Python's `marker in text`. */
  predicate Contains(text: string, marker: string) {
    exists i :: 0 <= i <= |text| && marker <= text[i..]
  }

  predicate ContainsAny(text: string, markers: seq<string>) {
    exists m :: m in markers && Contains(text, m)
  }

  /** Python's `str()`: the identity on strings, left open on other values. */
  ghost predicate KeepsStrings(f: Json -> string) {
    forall s :: f(Str(s)) == s
  }

  type StrOf = f: Json -> string | KeepsStrings(f) witness (v: Json) => if v.Str? then v.text else ""

  // ----- reading trees -----

  function Get(fields: map<string, Json>, key: string): Option<Json> {
    if key in fields then Some(fields[key]) else None
  }

  /** The part of an object that has the given keys. */
  function Pick(fields: map<string, Json>, keys: set<string>): map<string, Json> {
    map k | k in fields && k in keys :: fields[k]
  }

  /** Python truthiness. */
  predicate Truthy(v: Json) {
    match v
    case Null => false
    case Bool(b) => b
    case Num(n) => n != 0
    case Str(s) => s != ""
    case Arr(items) => items != []
    case Obj(fields) => fields != map[]
  }
}
