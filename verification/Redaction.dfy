/** Redaction of sensitive keys, src/assistant/workflows/redaction.py. */
module Redaction {
  import opened Common
  import opened Json

  const REDACTED := "[REDACTED]"
  const MARKER := Str(REDACTED)

  const SENSITIVE_KEYS := {
    "secret", "secrets", "token", "tokens", "password", "passwords",
    "apikey", "apikeys", "privatekey", "privatekeys"
  }

  predicate LowerAlnum(c: char) {
    'a' <= c <= 'z' || '0' <= c <= '9'
  }

  function KeepLowerAlnum(s: string): string {
    if s == "" then ""
    else if LowerAlnum(s[0]) then [s[0]] + KeepLowerAlnum(s[1..])
    else KeepLowerAlnum(s[1..])
  }

  /** `_is_sensitive_key`. */
  predicate IsSensitiveKey(key: string, fold: CaseFold) {
    KeepLowerAlnum(Fold(key, fold)) in SENSITIVE_KEYS
  }

  predicate AsciiText(s: string) {
    forall i :: 0 <= i < |s| ==> s[i] as int < 128
  }

  /** The letters and digits of a text, in lower case. */
  function LettersAndDigits(s: string): string {
    if s == "" then ""
    else
      var c := if 'A' <= s[0] <= 'Z' then (s[0] - 'A') + 'a' else s[0];
      (if 'a' <= c <= 'z' || '0' <= c <= '9' then [c] else "") + LettersAndDigits(s[1..])
  }

  lemma {:induction false} KeepsLettersAndDigits(s: string, fold: CaseFold)
    requires AsciiText(s)
    ensures KeepLowerAlnum(Fold(s, fold)) == LettersAndDigits(s)
  {
    if s != "" {
      KeepsLettersAndDigits(s[1..], fold);
      var c := AsciiLower(s[0]);
      assert fold(s[0]) == [c];
      assert Fold(s, fold) == [c] + Fold(s[1..], fold);
      assert ([c] + Fold(s[1..], fold))[1..] == Fold(s[1..], fold);
    }
  }

  /** An ASCII key is sensitive exactly if its letters and digits, whatever their case and what is between them, are one of ten words. */
  lemma SensitiveKeysExactly(key: string, fold: CaseFold)
    requires AsciiText(key)
    ensures IsSensitiveKey(key, fold) <==>
      LettersAndDigits(key) in {"secret", "secrets", "token", "tokens", "password", "passwords", "apikey", "apikeys", "privatekey", "privatekeys"}
  {
    KeepsLettersAndDigits(key, fold);
  }

  // ----- the keys the retry protocol itself reads are not sensitive -----

  const PROTOCOL_KEYS := {"capability", "arguments", "context", "current_cwd", "cwd"}

  ghost predicate LeavesProtocolKeys(f: string -> bool) {
    forall k :: k in PROTOCOL_KEYS ==> !f(k)
  }

  /** What the theorems below need of the test for sensitive keys; `_is_sensitive_key` is one such test. */
  type KeyTest = f: string -> bool | LeavesProtocolKeys(f) witness (k: string) => false

  lemma SensitiveKeysStart(key: string)
    requires key in SENSITIVE_KEYS
    ensures |key| >= 5 && key[0] != 'c' && (key[0] == 'a' ==> key[1] == 'p')
  {
  }

  lemma {:induction false} KeepAll(s: string)
    requires forall i :: 0 <= i < |s| ==> LowerAlnum(s[i])
    ensures KeepLowerAlnum(s) == s
  {
    if s != "" {
      KeepAll(s[1..]);
    }
  }

  lemma KeepsFirst(s: string)
    requires s != "" && LowerAlnum(s[0])
    ensures KeepLowerAlnum(s) != "" && KeepLowerAlnum(s)[0] == s[0]
  {
  }

  lemma OpenWord(key: string, fold: CaseFold)
    requires |key| >= 2 && PlainLower(key) && LowerAlnum(key[0]) && LowerAlnum(key[1])
    requires key[0] == 'c' || (key[0] == 'a' && key[1] != 'p')
    ensures !IsSensitiveKey(key, fold)
  {
    FoldFixesPlainLower(key, fold);
    KeepsFirst(key);
    KeepsFirst(key[1..]);
    var kept := KeepLowerAlnum(key);
    assert kept[0] == key[0] && kept[1] == key[1];
    if kept in SENSITIVE_KEYS {
      SensitiveKeysStart(kept);
    }
  }

  lemma SourceKeyTestIsOpen(fold: CaseFold, key: string)
    requires key in PROTOCOL_KEYS
    ensures !IsSensitiveKey(key, fold)
  {
    ProtocolKeysStart(key);
    OpenWord(key, fold);
  }

  lemma ProtocolKeysStart(key: string)
    requires key in PROTOCOL_KEYS
    ensures |key| >= 2 && PlainLower(key) && LowerAlnum(key[0]) && LowerAlnum(key[1])
    ensures key[0] == 'c' || (key[0] == 'a' && key[1] != 'p')
  {
  }

  /** The test the source uses. */
  function SourceKeyTest(fold: CaseFold): KeyTest {
    var f := (k: string) => IsSensitiveKey(k, fold);
    assert LeavesProtocolKeys(f) by {
      forall k | k in PROTOCOL_KEYS ensures !f(k) {
        SourceKeyTestIsOpen(fold, k);
      }
    }
    f
  }

  function Redact(v: Json, sensitive: KeyTest): Json {
    match v
    case Obj(fields) =>
      Obj(map k | k in fields :: if sensitive(k) then MARKER else Redact(fields[k], sensitive))
    case Arr(items) => Arr(seq(|items|, i requires 0 <= i < |items| => Redact(items[i], sensitive)))
    case _ => v
  }

  function RedactFields(fields: map<string, Json>, sensitive: KeyTest): (r: map<string, Json>)
    ensures r.Keys == fields.Keys
    ensures Redact(Obj(fields), sensitive) == Obj(r)
  {
    map k | k in fields :: if sensitive(k) then MARKER else Redact(fields[k], sensitive)
  }

  /** The test made before a retry runs: is some value in the tree the marker? */
  predicate ContainsRedacted(v: Json) {
    v == MARKER ||
    match v
    case Obj(fields) => exists k :: k in fields && ContainsRedacted(fields[k])
    case Arr(items) => exists i :: 0 <= i < |items| && ContainsRedacted(items[i])
    case _ => false
  }

  /** Some key anywhere in the tree is sensitive. */
  predicate HasSensitiveKey(v: Json, sensitive: KeyTest) {
    match v
    case Obj(fields) => exists k :: k in fields && (sensitive(k) || HasSensitiveKey(fields[k], sensitive))
    case Arr(items) => exists i :: 0 <= i < |items| && HasSensitiveKey(items[i], sensitive)
    case _ => false
  }

  // ----- what redaction does at each place of a tree -----

  datatype Place = Key(key: string) | Index(index: nat)

  /** The subtree at the end of a path, if there is one. */
  function At(v: Json, path: seq<Place>): Option<Json> {
    if path == [] then Some(v)
    else match (v, path[0])
      case (Obj(fields), Key(k)) => if k in fields then At(fields[k], path[1..]) else None
      case (Arr(items), Index(i)) => if i < |items| then At(items[i], path[1..]) else None
      case (_, _) => None
  }

  predicate Sensitive(p: Place, sensitive: KeyTest) {
    p.Key? && sensitive(p.key)
  }

  /** No step of the path goes through a sensitive key. */
  predicate OpenPath(path: seq<Place>, sensitive: KeyTest) {
    forall i :: 0 <= i < |path| ==> !Sensitive(path[i], sensitive)
  }

  predicate SameKind(v: Json, w: Json) {
    match v
    case Obj(fields) => w.Obj? && w.fields.Keys == fields.Keys
    case Arr(items) => w.Arr? && |w.items| == |items|
    case _ => w == v
  }

  /**
    A place reached through open keys only keeps its kind, its keys and its leaves;
    the first sensitive key on a path leads to the marker and nothing is left below it.
   */
  lemma {:induction false} RedactAt(v: Json, path: seq<Place>, sensitive: KeyTest)
    ensures OpenPath(path, sensitive) ==>
      match At(v, path)
      case Some(w) => At(Redact(v, sensitive), path) == Some(Redact(w, sensitive)) && SameKind(w, Redact(w, sensitive))
      case None => At(Redact(v, sensitive), path) == None
    ensures path != [] && OpenPath(path[..|path| - 1], sensitive) && Sensitive(path[|path| - 1], sensitive) && At(v, path).Some? ==>
      At(Redact(v, sensitive), path) == Some(MARKER)
    ensures forall i :: 0 <= i < |path| - 1 && Sensitive(path[i], sensitive) ==> At(Redact(v, sensitive), path) == None
    decreases path
  {
    if path != [] {
      var rest := path[1..];
      assert forall i :: 0 <= i < |rest| ==> rest[i] == path[i + 1];
      assert |path| > 1 ==> rest[..|rest| - 1] == path[..|path| - 1][1..];
      assert OpenPath(path, sensitive) ==> OpenPath(rest, sensitive);
      match (v, path[0])
      case (Obj(fields), Key(k)) =>
        if k in fields {
          RedactAt(fields[k], rest, sensitive);
          if sensitive(k) && rest != [] {
            assert At(MARKER, rest) == None;
          }
        }
      case (Arr(items), Index(i)) =>
        if i < |items| {
          RedactAt(items[i], rest, sensitive);
        }
      case (_, _) =>
    }
  }

  /** `redact_sensitive`: redaction with the test the source uses. */
  function RedactSensitive(v: Json, fold: CaseFold): Json {
    Redact(v, SourceKeyTest(fold))
  }

  lemma HidesExactly(v: Json, path: seq<Place>, w: Json, sensitive: KeyTest)
    requires path != [] && path[|path| - 1].Key? && OpenPath(path[..|path| - 1], sensitive) && At(v, path) == Some(w)
    ensures At(Redact(v, sensitive), path) == Some(if sensitive(path[|path| - 1].key) then MARKER else Redact(w, sensitive))
  {
    RedactAt(v, path, sensitive);
    if !sensitive(path[|path| - 1].key) {
      assert forall i :: 0 <= i < |path| - 1 ==> path[..|path| - 1][i] == path[i];
      assert OpenPath(path, sensitive);
    }
  }

  /** Below open places only, the value of a key is hidden exactly if `_is_sensitive_key` holds of the key. */
  lemma HidesExactlySensitiveKeys(v: Json, path: seq<Place>, w: Json, fold: CaseFold)
    requires path != [] && path[|path| - 1].Key? && OpenPath(path[..|path| - 1], SourceKeyTest(fold)) && At(v, path) == Some(w)
    ensures At(RedactSensitive(v, fold), path) ==
            Some(if IsSensitiveKey(path[|path| - 1].key, fold) then MARKER else RedactSensitive(w, fold))
  {
    HidesExactly(v, path, w, SourceKeyTest(fold));
  }

  /** Whatever is below a sensitive key is the marker. */
  ghost predicate Hides(v: Json, sensitive: KeyTest) {
    forall path: seq<Place>, w: Json :: path != [] && At(v, path) == Some(w) && Sensitive(path[|path| - 1], sensitive) ==> w == MARKER
  }

  lemma {:induction false} HiddenAt(v: Json, path: seq<Place>, w: Json, sensitive: KeyTest)
    requires path != [] && At(Redact(v, sensitive), path) == Some(w) && Sensitive(path[|path| - 1], sensitive)
    ensures w == MARKER
    decreases path
  {
    var rest := path[1..];
    if rest != [] {
      assert rest[|rest| - 1] == path[|path| - 1];
      match (v, path[0])
      case (Obj(fields), Key(k)) =>
        assert sensitive(k) ==> At(MARKER, rest) == None;
        HiddenAt(fields[k], rest, w, sensitive);
      case (Arr(items), Index(i)) => HiddenAt(items[i], rest, w, sensitive);
    }
  }

  lemma RedactedHides(v: Json, sensitive: KeyTest)
    ensures Hides(Redact(v, sensitive), sensitive)
  {
    forall path: seq<Place>, w: Json
      | path != [] && At(Redact(v, sensitive), path) == Some(w) && Sensitive(path[|path| - 1], sensitive)
      ensures w == MARKER
    {
      HiddenAt(v, path, w, sensitive);
    }
  }

  lemma FieldHides(fields: map<string, Json>, k: string, sensitive: KeyTest)
    requires Hides(Obj(fields), sensitive) && k in fields
    ensures Hides(fields[k], sensitive) && (sensitive(k) ==> fields[k] == MARKER)
  {
    var v := Obj(fields);
    assert [Key(k)][1..] == [];
    assert At(v, [Key(k)]) == Some(fields[k]);
    forall path: seq<Place>, w: Json | path != [] && At(fields[k], path) == Some(w) && Sensitive(path[|path| - 1], sensitive)
      ensures w == MARKER
    {
      var longer := [Key(k)] + path;
      assert longer[1..] == path && longer[|longer| - 1] == path[|path| - 1];
      assert At(v, longer) == Some(w);
    }
  }

  lemma FieldsHide(fields: map<string, Json>, sensitive: KeyTest)
    requires forall k :: k in fields ==> Hides(fields[k], sensitive) && (sensitive(k) ==> fields[k] == MARKER)
    ensures Hides(Obj(fields), sensitive)
  {
    forall path: seq<Place>, w: Json | path != [] && At(Obj(fields), path) == Some(w) && Sensitive(path[|path| - 1], sensitive)
      ensures w == MARKER
    {
      AtField(fields, path);
      HidesBelow(fields[path[0].key], path, w, sensitive);
    }
  }

  lemma AtField(fields: map<string, Json>, path: seq<Place>)
    requires path != [] && At(Obj(fields), path).Some?
    ensures path[0].Key? && path[0].key in fields && At(Obj(fields), path) == At(fields[path[0].key], path[1..])
  {
  }

  lemma HidesBelow(v: Json, path: seq<Place>, w: Json, sensitive: KeyTest)
    requires path != [] && path[0].Key? && At(v, path[1..]) == Some(w) && Sensitive(path[|path| - 1], sensitive)
    requires Hides(v, sensitive) && (sensitive(path[0].key) ==> v == MARKER)
    ensures w == MARKER
  {
    var rest := path[1..];
    if rest != [] {
      assert rest[|rest| - 1] == path[|path| - 1];
    }
  }

  lemma MarkerHides(sensitive: KeyTest)
    ensures Hides(MARKER, sensitive)
  {
  }

  // ----- whole trees -----

  lemma {:induction false} RedactIdempotent(v: Json, sensitive: KeyTest)
    ensures Redact(Redact(v, sensitive), sensitive) == Redact(v, sensitive)
  {
    match v
    case Obj(fields) =>
      forall k | k in fields ensures Redact(Redact(fields[k], sensitive), sensitive) == Redact(fields[k], sensitive) {
        RedactIdempotent(fields[k], sensitive);
      }
    case Arr(items) =>
      forall i | 0 <= i < |items| ensures Redact(Redact(items[i], sensitive), sensitive) == Redact(items[i], sensitive) {
        RedactIdempotent(items[i], sensitive);
      }
    case _ =>
  }

  /** The redacted tree shows the marker exactly when there was something to hide or a marker already. */
  lemma {:induction false} MarkerExactlyWhenHidden(v: Json, sensitive: KeyTest)
    ensures ContainsRedacted(Redact(v, sensitive)) <==> HasSensitiveKey(v, sensitive) || ContainsRedacted(v)
  {
    match v
    case Obj(fields) =>
      var r := Redact(v, sensitive).fields;
      forall k | k in fields
        ensures ContainsRedacted(r[k]) <==>
          sensitive(k) || HasSensitiveKey(fields[k], sensitive) || ContainsRedacted(fields[k])
      {
        MarkerExactlyWhenHidden(fields[k], sensitive);
      }
    case Arr(items) =>
      var r := Redact(v, sensitive).items;
      forall i | 0 <= i < |items|
        ensures ContainsRedacted(r[i]) <==> HasSensitiveKey(items[i], sensitive) || ContainsRedacted(items[i])
      {
        MarkerExactlyWhenHidden(items[i], sensitive);
      }
    case _ =>
  }

  /** A redacted tree without the marker is the original tree. */
  lemma {:induction false} MarkerFreeIsUnchanged(v: Json, sensitive: KeyTest)
    requires !ContainsRedacted(Redact(v, sensitive))
    ensures Redact(v, sensitive) == v
  {
    match v
    case Obj(fields) =>
      var r := Redact(v, sensitive).fields;
      forall k | k in fields ensures r[k] == fields[k] {
        assert !ContainsRedacted(r[k]);
        MarkerFreeIsUnchanged(fields[k], sensitive);
      }
    case Arr(items) =>
      var r := Redact(v, sensitive).items;
      forall i | 0 <= i < |items| ensures r[i] == items[i] {
        assert !ContainsRedacted(r[i]);
        MarkerFreeIsUnchanged(items[i], sensitive);
      }
    case _ =>
  }
}

