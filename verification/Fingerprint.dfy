/** Duplicate detection for alert rules: the fingerprint of a rule, and the search for a similar one. */
module Fingerprint {
  import opened Wire
  import opened Strings

  /** The normalised trigger configuration is a value of its own; the actions are known by their types. */
  datatype Rule = Rule(scopeType: string, targets: seq<string>, condition: string, actions: seq<string>)

  datatype FingerprintData = FingerprintData(scope: string, condition: string, actions: seq<string>)

  function NormalizeScope(scopeType: string, targets: seq<string>): string {
    if scopeType == "global" then "global" else scopeType + ":" + Join(Sorted(targets))
  }

  function DataOf(r: Rule): FingerprintData {
    FingerprintData(NormalizeScope(r.scopeType, r.targets), r.condition, Sorted(r.actions))
  }

  function Overlapping(type1: string, targets1: seq<string>, type2: string, targets2: seq<string>): bool {
    if type1 == "global" || type2 == "global" then true
    else if type1 == type2 then exists t :: t in targets1 && t in targets2
    else false
  }

  /* ----- When two scopes are normalised alike ----- */

  /** One target that is empty looks like no target at all. */
  predicate Hollow(targets: seq<string>) {
    targets == [] || targets == [""]
  }

  ghost predicate SameScope(type1: string, targets1: seq<string>, type2: string, targets2: seq<string>) {
    type1 == type2 && (type1 == "global" || multiset(targets1) == multiset(targets2))
  }

  lemma SortedKeepsCommaFree(s: seq<string>)
    requires CommaFree(s)
    ensures CommaFree(Sorted(s))
  {
    SortedIsOrdered(s);
    forall i | 0 <= i < |Sorted(s)| ensures ',' !in Sorted(s)[i] {
      assert Sorted(s)[i] in multiset(s);
    }
  }

  lemma HollowIff(s: seq<string>)
    requires CommaFree(s)
    ensures Hollow(s) <==> Join(Sorted(s)) == ""
  {
    SortedIsOrdered(s);
    assert |Sorted(s)| == |multiset(s)| == |s|;
    if |s| == 1 {
      assert Sorted(s) == s;
    }
  }

  lemma JoinedAlikeIff(a: seq<string>, b: seq<string>)
    requires CommaFree(a) && CommaFree(b)
    ensures Join(Sorted(a)) == Join(Sorted(b)) <==> multiset(a) == multiset(b) || (Hollow(a) && Hollow(b))
  {
    SortedEqualIff(a, b);
    SortedKeepsCommaFree(a);
    SortedKeepsCommaFree(b);
    HollowIff(a);
    HollowIff(b);
    if Join(Sorted(a)) == Join(Sorted(b)) != "" {
      JoinIsInjective(Sorted(a), Sorted(b));
    }
  }

  /**
   For types without a colon and targets without a comma, two scopes are normalised alike exactly
   when they are the same scope, or have the same type and no target that is not empty.
   */
  lemma ScopesAlikeIff(type1: string, targets1: seq<string>, type2: string, targets2: seq<string>)
    requires ':' !in type1 && ':' !in type2 && CommaFree(targets1) && CommaFree(targets2)
    ensures NormalizeScope(type1, targets1) == NormalizeScope(type2, targets2)
      <==> SameScope(type1, targets1, type2, targets2) || (type1 == type2 && Hollow(targets1) && Hollow(targets2))
  {
    JoinedAlikeIff(targets1, targets2);
    CutNone("global", ':');
    CutAt(type1, ':', Join(Sorted(targets1)));
    CutAt(type2, ':', Join(Sorted(targets2)));
  }

  /** The order of targets and actions does not matter, whatever they are. */
  lemma FingerprintForgetsOrder(r: Rule, targets: seq<string>, actions: seq<string>)
    requires multiset(targets) == multiset(r.targets) && multiset(actions) == multiset(r.actions)
    ensures DataOf(r.(targets := targets, actions := actions)) == DataOf(r)
  {
    SortedEqualIff(targets, r.targets);
    SortedEqualIff(actions, r.actions);
  }

  /** All global rules have one scope, whatever their targets; any other scope begins with its type. */
  lemma ScopeForms(scopeType: string, targets: seq<string>)
    ensures scopeType == "global" ==> NormalizeScope(scopeType, targets) == "global"
    ensures scopeType != "global" && ':' !in scopeType ==>
      Cut(NormalizeScope(scopeType, targets), ':') == (scopeType, true, Join(Sorted(targets)))
  {
    if ':' !in scopeType {
      CutAt(scopeType, ':', Join(Sorted(targets)));
      assert scopeType + [':'] + Join(Sorted(targets)) == scopeType + ":" + Join(Sorted(targets));
    }
  }

  /** Scopes overlap exactly if one of them is global, or both are of one type and share a target. */
  lemma OverlappingIff(type1: string, targets1: seq<string>, type2: string, targets2: seq<string>)
    ensures Overlapping(type1, targets1, type2, targets2) <==>
      type1 == "global" || type2 == "global" || (type1 == type2 && !(forall t :: t in targets1 ==> t !in targets2))
  {
  }

  /** With a comma in a target, or a colon in a type, different scopes may be normalised alike. */
  lemma ScopesCollide()
    ensures NormalizeScope("container", ["a,b"]) == NormalizeScope("container", ["a", "b"])
    ensures NormalizeScope("container", []) == NormalizeScope("container", [""])
    ensures NormalizeScope("group:a", ["b"]) == NormalizeScope("group", ["a:b"])
  {
  }

  /* ----- The search ----- */

  ghost predicate Injective(hash: FingerprintData -> string) {
    forall a, b :: hash(a) == hash(b) ==> a == b
  }

  predicate Similar(hash: FingerprintData -> string, new_: Rule, existing: Rule) {
    && hash(DataOf(new_)) == hash(DataOf(existing))
    && Overlapping(new_.scopeType, new_.targets, existing.scopeType, existing.targets)
  }

  /** The same action types in ascending order; nothing is dropped and nothing is merged. */
  method NormalizeActions(actionTypes: seq<string>) returns (normalized: seq<string>)
    ensures Ordered(normalized) && multiset(normalized) == multiset(actionTypes)
  {
    if actionTypes == [] {
      return [];
    }
    var types := [];
    for i := 0 to |actionTypes|
      invariant types == actionTypes[..i]
    {
      types := types + [actionTypes[i]];
    }
    assert types == actionTypes;
    SortedIsOrdered(types);
    return Sorted(types);
  }

  method GenerateRuleFingerprint(hash: FingerprintData -> string, rule: Rule) returns (fingerprint: string)
    ensures fingerprint == hash(DataOf(rule))
  {
    var actions := NormalizeActions(rule.actions);
    SortedIsOrdered(rule.actions);
    OrderedIsUnique(actions, Sorted(rule.actions));
    fingerprint := hash(FingerprintData(NormalizeScope(rule.scopeType, rule.targets), rule.condition, actions));
  }

  /** Returns the first existing rule that is similar to the new one, if there is any. */
  method FindSimilarRule(hash: FingerprintData -> string, new_: Rule, existing: seq<Rule>) returns (found: Option<nat>)
    ensures found == None ==> forall i :: 0 <= i < |existing| ==> !Similar(hash, new_, existing[i])
    ensures found.Some? ==> found.value < |existing| && Similar(hash, new_, existing[found.value])
    ensures found.Some? ==> forall i :: 0 <= i < found.value ==> !Similar(hash, new_, existing[i])
  {
    var newFingerprint := GenerateRuleFingerprint(hash, new_);
    for i := 0 to |existing|
      invariant forall j :: 0 <= j < i ==> !Similar(hash, new_, existing[j])
    {
      var fingerprint := GenerateRuleFingerprint(hash, existing[i]);
      if newFingerprint == fingerprint {
        if Overlapping(new_.scopeType, new_.targets, existing[i].scopeType, existing[i].targets) {
          return Some(i);
        }
      }
    }
    return None;
  }

  /* ----- What the search finds ----- */

  /** The rule watches the same targets for the same condition and takes the same kinds of action. */
  ghost predicate Duplicate(a: Rule, b: Rule) {
    SameScope(a.scopeType, a.targets, b.scopeType, b.targets) && a.condition == b.condition && multiset(a.actions) == multiset(b.actions)
  }

  predicate WellTyped(r: Rule) {
    ':' !in r.scopeType && CommaFree(r.targets)
  }

  lemma SharedTarget(a: seq<string>, b: seq<string>)
    requires multiset(a) == multiset(b) && a != []
    ensures exists t :: t in a && t in b
  {
    assert a[0] in multiset(a);
    assert a[0] in a && a[0] in b;
  }

  lemma FingerprintsAlikeIff(a: Rule, b: Rule)
    requires WellTyped(a) && WellTyped(b)
    ensures DataOf(a) == DataOf(b)
      <==> Duplicate(a, b)
           || (a.scopeType == b.scopeType && Hollow(a.targets) && Hollow(b.targets)
               && a.condition == b.condition && multiset(a.actions) == multiset(b.actions))
  {
    ScopesAlikeIff(a.scopeType, a.targets, b.scopeType, b.targets);
    SortedEqualIff(a.actions, b.actions);
  }

  /**
   Two rules are similar exactly when one duplicates the other and, unless they are global, they
   have a target at all. In particular the overlap test rejects no equal fingerprint of rules with
   targets, except that it tells one empty target from none.
   */
  lemma SimilarIffDuplicate(hash: FingerprintData -> string, a: Rule, b: Rule)
    requires Injective(hash) && WellTyped(a) && WellTyped(b)
    ensures Similar(hash, a, b) <==> Duplicate(a, b) && (a.scopeType == "global" || a.targets != [])
  {
    FingerprintsAlikeIff(a, b);
    assert DataOf(a) == DataOf(b) <==> hash(DataOf(a)) == hash(DataOf(b));
    if Duplicate(a, b) && a.scopeType != "global" && a.targets != [] {
      SharedTarget(a.targets, b.targets);
    }
    if a.targets == [] && multiset(a.targets) == multiset(b.targets) {
      assert |multiset(b.targets)| == 0;
    }
  }

  /** The search returns something exactly if the new rule duplicates an existing one; a rule without targets duplicates none. */
  method FindDuplicate(hash: FingerprintData -> string, new_: Rule, existing: seq<Rule>) returns (found: Option<nat>)
    requires Injective(hash) && WellTyped(new_) && forall i :: 0 <= i < |existing| ==> WellTyped(existing[i])
    requires new_.scopeType == "global" || new_.targets != []
    ensures found.Some? <==> exists i :: 0 <= i < |existing| && Duplicate(new_, existing[i])
    ensures found.Some? ==> found.value < |existing| && Duplicate(new_, existing[found.value])
  {
    found := FindSimilarRule(hash, new_, existing);
    forall i | 0 <= i < |existing| ensures Similar(hash, new_, existing[i]) <==> Duplicate(new_, existing[i]) {
      SimilarIffDuplicate(hash, new_, existing[i]);
    }
  }
}
