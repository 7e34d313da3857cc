/**
  When a chosen single run may go ahead without a question, in the words of the safety rules themselves; the evaluator
  of src/assistant/capabilities/adaptive_capability_graph.py is proved to decide exactly this.
 */
module SingleRuns {
  import opened Common
  import opened Json
  import opened Redaction
  import opened RetryArguments
  import opened CapabilityTable
  import opened CapabilityGraph

  // ----- secrets -----

  /** The word occurs in the text, where a dash may stand for an underscore. */
  predicate Spells(text: string, word: string) {
    exists i :: 0 <= i <= |text| && SpelledAt(text, i, word)
  }

  predicate SpelledAt(text: string, i: nat, word: string) {
    i + |word| <= |text| && forall j :: 0 <= j < |word| ==> text[i + j] == word[j] || (word[j] == '_' && text[i + j] == '-')
  }

  predicate NamesASecret(key: string, fold: CaseFold) {
    var k := Fold(key, fold);
    Spells(k, "password") || Spells(k, "secret") || Spells(k, "token") || Spells(k, "api_key") || Spells(k, "credential")
  }

  /** No place of the tree is reached through a key for which `names` holds. */
  ghost predicate FreeOf(v: Json, names: string -> bool) {
    forall path: seq<Place>, w: Json :: path != [] && At(v, path) == Some(w) && path[|path| - 1].Key? ==> !names(path[|path| - 1].key)
  }

  predicate SomeKey(v: Json, names: string -> bool) {
    match v
    case Obj(fields) => exists k :: k in fields && (names(k) || SomeKey(fields[k], names))
    case Arr(items) => exists i :: 0 <= i < |items| && SomeKey(items[i], names)
    case _ => false
  }

  lemma AtOneMore(v: Json, p: Place, w: Json, path: seq<Place>)
    requires At(v, [p]) == Some(w)
    ensures At(v, [p] + path) == At(w, path)
  {
    assert ([p] + path)[1..] == path && [p][1..] == [];
  }

  lemma {:induction false} KeyHasItsPath(v: Json, names: string -> bool) returns (path: seq<Place>)
    requires SomeKey(v, names)
    ensures path != [] && At(v, path).Some? && path[|path| - 1].Key? && names(path[|path| - 1].key)
  {
    match v
    case Obj(fields) =>
      var k :| k in fields && (names(k) || SomeKey(fields[k], names));
      assert At(v, [Key(k)]) == Some(fields[k]) by {
        assert [Key(k)][1..] == [];
      }
      if names(k) {
        path := [Key(k)];
      } else {
        var rest := KeyHasItsPath(fields[k], names);
        AtOneMore(v, Key(k), fields[k], rest);
        path := [Key(k)] + rest;
      }
    case Arr(items) =>
      var i :| 0 <= i < |items| && SomeKey(items[i], names);
      assert At(v, [Index(i)]) == Some(items[i]) by {
        assert [Index(i)][1..] == [];
      }
      var rest := KeyHasItsPath(items[i], names);
      AtOneMore(v, Index(i), items[i], rest);
      path := [Index(i)] + rest;
  }

  lemma {:induction false} PathShowsKey(v: Json, path: seq<Place>, names: string -> bool)
    requires path != [] && At(v, path).Some? && path[|path| - 1].Key? && names(path[|path| - 1].key)
    ensures SomeKey(v, names)
    decreases path
  {
    var rest := path[1..];
    if rest != [] {
      assert rest[|rest| - 1] == path[|path| - 1];
      match (v, path[0])
      case (Obj(fields), Key(k)) => PathShowsKey(fields[k], rest, names);
      case (Arr(items), Index(i)) => PathShowsKey(items[i], rest, names);
    }
  }

  lemma FreeExactly(v: Json, names: string -> bool)
    ensures FreeOf(v, names) <==> !SomeKey(v, names)
  {
    if SomeKey(v, names) {
      var path := KeyHasItsPath(v, names);
      assert !FreeOf(v, names);
    }
    forall path: seq<Place>, w: Json | path != [] && At(v, path) == Some(w) && path[|path| - 1].Key? && names(path[|path| - 1].key)
      ensures SomeKey(v, names)
    {
      PathShowsKey(v, path, names);
    }
  }

  lemma SpellsExactly(text: string, word: string)
    requires '-' !in word
    ensures Spells(text, word) <==> Contains(DashesToUnderscores(text), word)
  {
    var u := DashesToUnderscores(text);
    forall i | 0 <= i <= |text| ensures SpelledAt(text, i, word) <==> word <= u[i..] {
      SpelledExactly(text, i, word);
    }
  }

  lemma SpelledExactly(text: string, i: nat, word: string)
    requires '-' !in word && i <= |text|
    ensures SpelledAt(text, i, word) <==> word <= DashesToUnderscores(text)[i..]
  {
    var rest := DashesToUnderscores(text)[i..];
    if SpelledAt(text, i, word) {
      assert forall j :: 0 <= j < |word| ==> rest[j] == word[j];
      assert rest[..|word|] == word;
    }
    if word <= rest {
      assert forall j :: 0 <= j < |word| ==> word[j] == rest[j];
      assert forall j :: 0 <= j < |word| ==> word[j] in word;
    }
  }

  lemma SecretKeysExactly(key: string, fold: CaseFold)
    ensures NamesASecret(key, fold) <==> ContainsAny(DashesToUnderscores(Fold(key, fold)), SECRET_KEYS)
  {
    var k := Fold(key, fold);
    SpellsExactly(k, "password");
    SpellsExactly(k, "secret");
    SpellsExactly(k, "token");
    SpellsExactly(k, "api_key");
    SpellsExactly(k, "credential");
    AnyOfFive(DashesToUnderscores(k), SECRET_KEYS, "password", "secret", "token", "api_key", "credential");
  }

  lemma AnyOfFive(text: string, words: seq<string>, a: string, b: string, c: string, d: string, e: string)
    requires words == [a, b, c, d, e]
    ensures ContainsAny(text, words) <==> Contains(text, a) || Contains(text, b) || Contains(text, c) || Contains(text, d) || Contains(text, e)
  {
    assert words[0] == a && words[1] == b && words[2] == c && words[3] == d && words[4] == e;
  }

  lemma {:induction false} SecretExactly(v: Json, fold: CaseFold)
    ensures ContainsSecret(v, fold) <==> SomeKey(v, k => NamesASecret(k, fold))
  {
    match v
    case Obj(fields) =>
      forall k | k in fields
        ensures (ContainsAny(DashesToUnderscores(Fold(k, fold)), SECRET_KEYS) || ContainsSecret(fields[k], fold)) <==>
                (NamesASecret(k, fold) || SomeKey(fields[k], k => NamesASecret(k, fold)))
      {
        SecretKeysExactly(k, fold);
        SecretExactly(fields[k], fold);
      }
    case Arr(items) =>
      forall i | 0 <= i < |items| ensures ContainsSecret(items[i], fold) <==> SomeKey(items[i], k => NamesASecret(k, fold)) {
        SecretExactly(items[i], fold);
      }
    case _ =>
  }

  // ----- the rules -----

  /** The capability, without regard to case, is about the system or changes something. */
  predicate ActsOnTheSystem(action: Action, rules: TextRules) {
    var c := Fold(if "capability" in action then rules.render(action["capability"]) else "", rules.fold);
    || Contains(c, "shell") || Contains(c, "environment") || Contains(c, "env.") || Contains(c, "system")
    || Contains(c, "delete") || Contains(c, "destroy") || Contains(c, "remove") || Contains(c, "write") || Contains(c, "move")
  }

  predicate OnlyReads(p: Permissions) {
    |p.writes| == 0 && !p.network && |p.executables| == 0
  }

  /** The dry run can be executed, asks for nothing, and is of low risk. */
  predicate Harmless(dryRun: map<string, Json>) {
    && "can_execute" in dryRun && Truthy(dryRun["can_execute"])
    && ("requires_confirmation" in dryRun ==> !Truthy(dryRun["requires_confirmation"]))
    && "risk" in dryRun && dryRun["risk"] == Str("low")
  }

  ghost predicate HidesNothingSecret(action: Action, fold: CaseFold) {
    "arguments" in action ==> FreeOf(action["arguments"], k => NamesASecret(k, fold))
  }

  /** What must hold for a single run to need no further question; `action` is the stored form. */
  ghost predicate SafeToRunOnce(p: Permissions, action: Action, policy: string, retry: RetryStatus, dryRun: map<string, Json>,
                                rules: TextRules) {
    && OnlyReads(p) && policy == "allow" && retry == RetryPending && Harmless(dryRun)
    && !ActsOnTheSystem(action, rules) && HidesNothingSecret(action, rules.fold)
  }

  // ----- the evaluator decides them -----

  lemma EffectfulExactly(action: Action, rules: TextRules)
    ensures ActsOnTheSystem(action, rules) <==> Effectful(action, rules)
  {
    AnyOfNine(CapabilityText(action, rules), EFFECT_MARKERS,
              "shell", "environment", "env.", "system", "delete", "destroy", "remove", "write", "move");
  }

  lemma AnyOfNine(text: string, words: seq<string>, a: string, b: string, c: string, d: string, e: string, f: string, g: string, h: string,
                  i: string)
    requires words == [a, b, c, d, e, f, g, h, i]
    ensures ContainsAny(text, words) <==>
      || Contains(text, a) || Contains(text, b) || Contains(text, c) || Contains(text, d) || Contains(text, e)
      || Contains(text, f) || Contains(text, g) || Contains(text, h) || Contains(text, i)
  {
    assert words[0] == a && words[1] == b && words[2] == c && words[3] == d && words[4] == e;
    assert words[5] == f && words[6] == g && words[7] == h && words[8] == i;
  }

  lemma OfferedExactly(p: Permissions, action: Action, rules: TextRules)
    ensures CanOfferRunOnce(p, action, rules) <==> OnlyReads(p) && !ActsOnTheSystem(action, rules)
  {
    EffectfulExactly(action, rules);
  }

  lemma SecretArgumentsExactly(action: Action, fold: CaseFold)
    ensures HidesNothingSecret(action, fold) <==> !("arguments" in action && ContainsSecret(action["arguments"], fold))
  {
    if "arguments" in action {
      SecretExactly(action["arguments"], fold);
      FreeExactly(action["arguments"], k => NamesASecret(k, fold));
    }
  }

  /** The evaluator lets a single run go ahead if and only if all of the rules hold. */
  lemma EligibleExactly(p: Permissions, action: Action, policy: string, retry: RetryStatus, dryRun: map<string, Json>, rules: TextRules)
    ensures Evaluate(p, action, policy, retry, dryRun, rules) == None <==> SafeToRunOnce(p, action, policy, retry, dryRun, rules)
  {
    EffectfulExactly(action, rules);
    SecretArgumentsExactly(action, rules.fold);
  }
}
