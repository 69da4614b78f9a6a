/**
 Routing preferences: rules and profiles under optimistic concurrency. A rule is identified by its
 normalized content, and rules with the same profile and conflict key compete for one slot.
 */
module RoutingPreferences {
  import opened Common
  import opened Text

  datatype Specificity = ServerWide | ToolSet | ConditionalTool

  datatype Target = Target(server: string, tool: string, assumption: string)

  /** A rule as a caller writes it. */
  datatype RuleSpec = RuleSpec(
    profile: string, specificity: Specificity, subject: string, condition: string,
    preferred: seq<Target>, deprioritized: seq<Target>)

  /** Targets in canonical form: one assumption for each server and tool. */
  type Targets = map<(string, string), string>

  /** A normalized rule. Its content determines its id, its conflict key and its assumption fingerprint. */
  datatype Rule = Rule(
    profile: string, specificity: Specificity, subject: string, condition: string,
    preferred: Targets, deprioritized: Targets)
  {
    function Slot(): (string, Specificity, string, string) {
      (profile, specificity, subject, condition)
    }
  }

  datatype Review = InForce | NeedsReview

  datatype Profile = Profile(name: string, description: string)

  datatype Prefs = Prefs(profiles: map<string, Profile>, rules: map<Rule, Review>, revision: nat)

  const REVISIONS := 0x1_0000_0000_0000_0000

  datatype Error =
    | InvalidRequest
    | ProfileNotFound
    | RuleNotFound
    | RevisionConflict(expected: nat, current: nat)
    | SlotConflict
    | NameTaken

  datatype Written = Written(revision: nat, changed: bool, needsReview: bool)

  // ---------------------------------------------------------------------------------------------
  // Normalization
  // ---------------------------------------------------------------------------------------------

  function TargetKey(t: Target): (string, string) {
    (Trim(t.server), Trim(t.tool))
  }

  predicate TargetComplete(t: Target) {
    Trim(t.server) != "" && Trim(t.tool) != "" && Trim(t.assumption) != ""
  }

  /** The canonical form of targets, unless one is incomplete or named twice. */
  function NormalTargets(targets: seq<Target>): Option<Targets> {
    if targets == [] then Some(map[])
    else
      var rest, last := NormalTargets(targets[..|targets| - 1]), targets[|targets| - 1];
      if rest.None? || !TargetComplete(last) || TargetKey(last) in rest.value then None
      else Some(rest.value[TargetKey(last) := Trim(last.assumption)])
  }

  predicate ConditionFits(specificity: Specificity, condition: string) {
    specificity.ConditionalTool? <==> condition != ""
  }

  function Normalize(spec: RuleSpec): Option<Rule> {
    var subject, condition := Trim(spec.subject), Trim(spec.condition);
    var preferred, deprioritized := NormalTargets(spec.preferred), NormalTargets(spec.deprioritized);
    if subject == "" || !ConditionFits(spec.specificity, condition) then None
    else if preferred.None? || preferred.value == map[] || deprioritized.None? then None
    else if preferred.value.Keys * deprioritized.value.Keys != {} then None
    else Some(Rule(Trim(spec.profile), spec.specificity, subject, condition, preferred.value, deprioritized.value))
  }

  /** The loop over targets: trims, refuses incomplete and repeated ones. */
  method CollectTargets(targets: seq<Target>) returns (r: Option<Targets>)
    ensures r == NormalTargets(targets)
  {
    var found: Targets := map[];
    for i := 0 to |targets|
      invariant NormalTargets(targets[..i]) == Some(found)
    {
      assert targets[..i + 1][..i] == targets[..i];
      var t := targets[i];
      if !TargetComplete(t) || TargetKey(t) in found {
        StaysRefused(targets, i + 1);
        return None;
      }
      found := found[TargetKey(t) := Trim(t.assumption)];
    }
    assert targets[..|targets|] == targets;
    r := Some(found);
  }

  lemma {:induction false} StaysRefused(targets: seq<Target>, n: nat)
    requires n <= |targets| && NormalTargets(targets[..n]).None?
    ensures NormalTargets(targets).None?
    decreases |targets|
  {
    if n == |targets| {
      assert targets[..n] == targets;
    } else {
      var init := targets[..|targets| - 1];
      assert init[..n] == targets[..n];
      StaysRefused(init, n);
    }
  }

  /** Targets that can be stored: each names server, tool and assumption, and none names what another does. */
  ghost predicate TargetsFit(targets: seq<Target>) {
    && (forall i :: 0 <= i < |targets| ==>
          Trim(targets[i].server) != "" && Trim(targets[i].tool) != "" && Trim(targets[i].assumption) != "")
    && (forall i, j :: 0 <= i < j < |targets| ==>
          Trim(targets[i].server) != Trim(targets[j].server) || Trim(targets[i].tool) != Trim(targets[j].tool))
  }

  /** Some target trims to this server, tool and assumption. */
  ghost predicate Names(targets: seq<Target>, server: string, tool: string, assumption: string) {
    exists i :: 0 <= i < |targets| && Trim(targets[i].server) == server && Trim(targets[i].tool) == tool
                && Trim(targets[i].assumption) == assumption
  }

  /** The canonical form says of a server and tool what a target says, and nothing else. */
  ghost predicate SaysTheSame(m: Targets, targets: seq<Target>) {
    forall server, tool, assumption ::
      ((server, tool) in m && m[(server, tool)] == assumption) <==> Names(targets, server, tool, assumption)
  }

  lemma NamesMore(targets: seq<Target>, server: string, tool: string, assumption: string)
    requires targets != []
    ensures var n := |targets| - 1;
            Names(targets, server, tool, assumption) <==>
              || Names(targets[..n], server, tool, assumption)
              || (Trim(targets[n].server) == server && Trim(targets[n].tool) == tool && Trim(targets[n].assumption) == assumption)
  {
    hide Trim;
    var init := targets[..|targets| - 1];
    if Names(init, server, tool, assumption) {
      var i :| 0 <= i < |init| && Trim(init[i].server) == server && Trim(init[i].tool) == tool && Trim(init[i].assumption) == assumption;
      assert targets[i] == init[i];
    }
    if Names(targets, server, tool, assumption) {
      var i :| 0 <= i < |targets| && Trim(targets[i].server) == server && Trim(targets[i].tool) == tool && Trim(targets[i].assumption) == assumption;
      assert i < |init| ==> init[i] == targets[i];
    }
  }

  /** Targets have a canonical form exactly if they fit, and it says the same. */
  lemma {:induction false} CanonicalTargets(targets: seq<Target>)
    ensures NormalTargets(targets).Some? <==> TargetsFit(targets)
    ensures NormalTargets(targets).Some? ==> SaysTheSame(NormalTargets(targets).value, targets)
    decreases |targets|
  {
    hide Trim, Names;
    if targets == [] {
      NamesNothing();
    } else {
      var n := |targets| - 1;
      var init, last := targets[..n], targets[n];
      CanonicalTargets(init);
      assert TargetsFit(targets) ==> TargetsFit(init);
      if TargetsFit(init) {
        var m, k := NormalTargets(init).value, (Trim(last.server), Trim(last.tool));
        if k in m {
          assert Names(init, k.0, k.1, m[k]);
          RepeatDoesNotFit(targets, k.0, k.1, m[k]);
        } else {
          NewFits(targets, m);
          forall server, tool, assumption {
            NamesMore(targets, server, tool, assumption);
          }
        }
      }
    }
  }

  lemma NamesNothing()
    ensures SaysTheSame(map[], [])
  {
  }

  lemma RepeatDoesNotFit(targets: seq<Target>, server: string, tool: string, assumption: string)
    requires targets != [] && Names(targets[..|targets| - 1], server, tool, assumption)
    requires Trim(targets[|targets| - 1].server) == server && Trim(targets[|targets| - 1].tool) == tool
    ensures !TargetsFit(targets)
  {
    hide Trim;
    var init := targets[..|targets| - 1];
    var i :| 0 <= i < |init| && Trim(init[i].server) == server && Trim(init[i].tool) == tool && Trim(init[i].assumption) == assumption;
    assert targets[i] == init[i];
  }

  lemma NewFits(targets: seq<Target>, m: Targets)
    requires targets != [] && TargetsFit(targets[..|targets| - 1]) && SaysTheSame(m, targets[..|targets| - 1])
    requires var last := targets[|targets| - 1]; (Trim(last.server), Trim(last.tool)) !in m
    ensures var last := targets[|targets| - 1];
            TargetsFit(targets) <==> Trim(last.server) != "" && Trim(last.tool) != "" && Trim(last.assumption) != ""
  {
    hide Trim;
    var n := |targets| - 1;
    var init, last := targets[..n], targets[n];
    assert forall i :: 0 <= i < n ==> init[i] == targets[i];
    forall i | 0 <= i < n ensures Trim(targets[i].server) != Trim(last.server) || Trim(targets[i].tool) != Trim(last.tool) {
      assert Names(init, Trim(init[i].server), Trim(init[i].tool), Trim(init[i].assumption));
    }
  }

  /** A rule that cannot be stored, in terms of what the caller wrote. */
  ghost predicate Refusable(spec: RuleSpec) {
    || Trim(spec.subject) == ""
    || (spec.specificity == ConditionalTool && Trim(spec.condition) == "")
    || (spec.specificity != ConditionalTool && Trim(spec.condition) != "")
    || spec.preferred == []
    || !TargetsFit(spec.preferred) || !TargetsFit(spec.deprioritized)
    || (exists i, j :: 0 <= i < |spec.preferred| && 0 <= j < |spec.deprioritized|
                       && Trim(spec.preferred[i].server) == Trim(spec.deprioritized[j].server)
                       && Trim(spec.preferred[i].tool) == Trim(spec.deprioritized[j].tool))
  }

  /** The rule is what the caller wrote, trimmed, with each target on its side. */
  ghost predicate Says(rule: Rule, spec: RuleSpec) {
    && rule.profile == Trim(spec.profile) && rule.specificity == spec.specificity
    && rule.subject == Trim(spec.subject) && rule.condition == Trim(spec.condition)
    && SaysTheSame(rule.preferred, spec.preferred) && SaysTheSame(rule.deprioritized, spec.deprioritized)
  }

  lemma NamesOf(targets: seq<Target>, m: Targets, i: nat)
    requires SaysTheSame(m, targets) && i < |targets|
    ensures (Trim(targets[i].server), Trim(targets[i].tool)) in m
  {
    hide Trim;
    assert Names(targets, Trim(targets[i].server), Trim(targets[i].tool), Trim(targets[i].assumption));
  }

  lemma NamedBy(targets: seq<Target>, m: Targets, k: (string, string)) returns (i: nat)
    requires SaysTheSame(m, targets) && k in m
    ensures i < |targets| && Trim(targets[i].server) == k.0 && Trim(targets[i].tool) == k.1
  {
    hide Trim;
    assert Names(targets, k.0, k.1, m[k]);
    i :| 0 <= i < |targets| && Trim(targets[i].server) == k.0 && Trim(targets[i].tool) == k.1 && Trim(targets[i].assumption) == m[k];
  }

  /** Two lists of targets have one in common exactly if their canonical forms do. */
  lemma CommonTarget(x: seq<Target>, m: Targets, y: seq<Target>, n: Targets)
    requires SaysTheSame(m, x) && SaysTheSame(n, y)
    ensures m.Keys * n.Keys != {} <==>
              exists i, j :: 0 <= i < |x| && 0 <= j < |y| && Trim(x[i].server) == Trim(y[j].server) && Trim(x[i].tool) == Trim(y[j].tool)
    ensures m == map[] <==> x == []
  {
    hide Trim, SaysTheSame;
    if k :| k in m.Keys * n.Keys {
      var i := NamedBy(x, m, k);
      var j := NamedBy(y, n, k);
    }
    if i, j :| 0 <= i < |x| && 0 <= j < |y| && Trim(x[i].server) == Trim(y[j].server) && Trim(x[i].tool) == Trim(y[j].tool) {
      NamesOf(x, m, i);
      NamesOf(y, n, j);
      assert (Trim(x[i].server), Trim(x[i].tool)) in m.Keys * n.Keys;
    }
    if k :| k in m {
      var i := NamedBy(x, m, k);
    }
    if x != [] {
      NamesOf(x, m, 0);
    }
  }

  /** Normalization refuses exactly what cannot be stored, and otherwise keeps what the caller wrote. */
  lemma NormalizationMeans(spec: RuleSpec)
    ensures Normalize(spec).None? <==> Refusable(spec)
    ensures Normalize(spec).Some? ==> Says(Normalize(spec).value, spec)
  {
    hide Trim, SaysTheSame, TargetsFit, NormalTargets;
    CanonicalTargets(spec.preferred);
    CanonicalTargets(spec.deprioritized);
    if TargetsFit(spec.preferred) && TargetsFit(spec.deprioritized) {
      CommonTarget(spec.preferred, NormalTargets(spec.preferred).value, spec.deprioritized, NormalTargets(spec.deprioritized).value);
    } else if TargetsFit(spec.preferred) {
      CommonTarget(spec.preferred, NormalTargets(spec.preferred).value, [], map[]) by { NamesNothing(); }
    }
  }

  // ---------------------------------------------------------------------------------------------
  // Operations
  // ---------------------------------------------------------------------------------------------

  datatype Op =
    | PutRule(expected: nat, spec: RuleSpec)
    | ConfirmRule(expected: nat, rule: Rule)
    | DeleteRule(expected: nat, rule: Rule)
    | PutProfile(expected: nat, id: string, name: string, description: string)
    | DeleteProfile(expected: nat, profile: string)
    | ReconcileTargets(current: Targets)

  function Bumped(revision: nat): nat {
    (revision + 1) % REVISIONS
  }

  /** Other rules that compete for the slot of a rule. */
  function Rivals(rules: map<Rule, Review>, rule: Rule): set<Rule> {
    set r | r in rules && r.Slot() == rule.Slot() && r != rule
  }

  function Downgraded(rules: map<Rule, Review>, some: set<Rule>): map<Rule, Review> {
    map r | r in rules :: if r in some then NeedsReview else rules[r]
  }

  function PutRuleIn(p: Prefs, expected: nat, spec: RuleSpec): (Prefs, Result<Written, Error>) {
    var normal := Normalize(spec);
    if normal.None? then (p, Err(InvalidRequest))
    else
      var rule := normal.value;
      if rule.profile != "" && rule.profile !in p.profiles then (p, Err(ProfileNotFound))
      else if rule in p.rules then (p, Ok(Written(p.revision, false, p.rules[rule].NeedsReview?)))
      else if p.revision != expected then (p, Err(RevisionConflict(expected, p.revision)))
      else
        var rivals := Rivals(p.rules, rule);
        var review := if rivals == {} then InForce else NeedsReview;
        var u := p.(rules := Downgraded(p.rules, rivals)[rule := review], revision := Bumped(p.revision));
        (u, Ok(Written(u.revision, true, review.NeedsReview?)))
  }

  function ConfirmRuleIn(p: Prefs, expected: nat, rule: Rule): (Prefs, Result<Written, Error>) {
    if rule !in p.rules then (p, Err(RuleNotFound))
    else if p.rules[rule].InForce? then (p, Ok(Written(p.revision, false, false)))
    else if p.revision != expected then (p, Err(RevisionConflict(expected, p.revision)))
    else if Rivals(p.rules, rule) != {} then (p, Err(SlotConflict))
    else
      var u := p.(rules := p.rules[rule := InForce], revision := Bumped(p.revision));
      (u, Ok(Written(u.revision, true, false)))
  }

  function DeleteRuleIn(p: Prefs, expected: nat, rule: Rule): (Prefs, Result<Written, Error>) {
    if rule !in p.rules then (p, Ok(Written(p.revision, false, false)))
    else if p.revision != expected then (p, Err(RevisionConflict(expected, p.revision)))
    else
      var u := p.(rules := p.rules - {rule}, revision := Bumped(p.revision));
      (u, Ok(Written(u.revision, true, false)))
  }

  /** A profile without an id gets one that its name determines. */
  function ProfileId(id: string, name: string): string {
    if id == "" then "profile:" + Trim(name) else id
  }

  function PutProfileIn(p: Prefs, expected: nat, id: string, name: string, description: string): (Prefs, Result<Written, Error>) {
    var key, profile := ProfileId(id, name), Profile(Trim(name), Trim(description));
    if profile.name == "" then (p, Err(InvalidRequest))
    else if key in p.profiles && p.profiles[key] == profile then (p, Ok(Written(p.revision, false, false)))
    else if p.revision != expected then (p, Err(RevisionConflict(expected, p.revision)))
    else if exists other :: other in p.profiles && other != key && p.profiles[other].name == profile.name then (p, Err(NameTaken))
    else
      var u := p.(profiles := p.profiles[key := profile], revision := Bumped(p.revision));
      (u, Ok(Written(u.revision, true, false)))
  }

  /** Deleting a profile deletes its rules with it. */
  function DeleteProfileIn(p: Prefs, expected: nat, profile: string): (Prefs, Result<Written, Error>) {
    var key := Trim(profile);
    if key == "" then (p, Err(InvalidRequest))
    else if key !in p.profiles then (p, Ok(Written(p.revision, false, false)))
    else if p.revision != expected then (p, Err(RevisionConflict(expected, p.revision)))
    else
      var u := p.(profiles := p.profiles - {key},
                  rules := map r | r in p.rules && r.profile != key :: p.rules[r],
                  revision := Bumped(p.revision));
      (u, Ok(Written(u.revision, true, false)))
  }

  /** A target of the rule is gone, or its assumption no longer holds. */
  predicate Stale(rule: Rule, current: Targets) {
    || (exists k :: k in rule.preferred && !(k in current && current[k] == rule.preferred[k]))
    || (exists k :: k in rule.deprioritized && !(k in current && current[k] == rule.deprioritized[k]))
  }

  function StaleRules(rules: map<Rule, Review>, current: Targets): set<Rule> {
    set r | r in rules && rules[r].InForce? && Stale(r, current)
  }

  function ReconcileIn(p: Prefs, current: Targets): (Prefs, Result<Written, Error>) {
    var stale := StaleRules(p.rules, current);
    if stale == {} then (p, Ok(Written(p.revision, false, false)))
    else
      var u := p.(rules := Downgraded(p.rules, stale), revision := Bumped(p.revision));
      (u, Ok(Written(u.revision, true, true)))
  }

  function Apply(p: Prefs, op: Op): (Prefs, Result<Written, Error>) {
    match op
    case PutRule(expected, spec) => PutRuleIn(p, expected, spec)
    case ConfirmRule(expected, rule) => ConfirmRuleIn(p, expected, rule)
    case DeleteRule(expected, rule) => DeleteRuleIn(p, expected, rule)
    case PutProfile(expected, id, name, description) => PutProfileIn(p, expected, id, name, description)
    case DeleteProfile(expected, profile) => DeleteProfileIn(p, expected, profile)
    case ReconcileTargets(current) => ReconcileIn(p, current)
  }

  predicate Changes(p: Prefs, op: Op) {
    Apply(p, op).1.Ok? && Apply(p, op).1.value.changed
  }

  // ---------------------------------------------------------------------------------------------
  // What every sequence of operations keeps
  // ---------------------------------------------------------------------------------------------

  /** A rule in force has no rival, and a rule of a profile names one that exists. */
  ghost predicate Sound(p: Prefs) {
    && (forall r, s :: r in p.rules && s in p.rules && r != s && r.Slot() == s.Slot() ==> p.rules[r].NeedsReview?)
    && (forall r :: r in p.rules && r.profile != "" ==> r.profile in p.profiles)
    && (forall i, j :: i in p.profiles && j in p.profiles && p.profiles[i].name == p.profiles[j].name ==> i == j)
    && p.revision < REVISIONS
  }

  lemma PutRuleKeeps(p: Prefs, expected: nat, spec: RuleSpec)
    requires Sound(p)
    ensures Sound(PutRuleIn(p, expected, spec).0)
  {
    hide Normalize;
    var u := PutRuleIn(p, expected, spec).0;
    if u != p {
      var rule := Normalize(spec).value;
      var rivals := Rivals(p.rules, rule);
      forall r, s | r in u.rules && s in u.rules && r != s && r.Slot() == s.Slot() ensures u.rules[r].NeedsReview? {
        if r == rule {
          assert s in rivals;
        } else if s == rule {
          assert r in rivals;
        }
      }
    }
  }

  lemma ConfirmRuleKeeps(p: Prefs, expected: nat, rule: Rule)
    requires Sound(p)
    ensures Sound(ConfirmRuleIn(p, expected, rule).0)
  {
    var u := ConfirmRuleIn(p, expected, rule).0;
    if u != p {
      forall r, s | r in u.rules && s in u.rules && r != s && r.Slot() == s.Slot() ensures u.rules[r].NeedsReview? {
        assert r == rule ==> s in Rivals(p.rules, rule);
      }
    }
  }

  lemma OpKeepsSound(p: Prefs, op: Op)
    requires Sound(p)
    ensures Sound(Apply(p, op).0)
  {
    hide Normalize, Trim, Stale;
    match op
    case PutRule(expected, spec) => PutRuleKeeps(p, expected, spec);
    case ConfirmRule(expected, rule) => ConfirmRuleKeeps(p, expected, rule);
    case _ =>
  }

  /** The revision moves by one exactly when something changes, and nothing changes without it. */
  lemma RevisionCountsChanges(p: Prefs, op: Op)
    requires Sound(p)
    ensures var u := Apply(p, op).0;
            && (Changes(p, op) ==> u.revision == Bumped(p.revision) && (u.profiles != p.profiles || u.rules != p.rules))
            && (!Changes(p, op) ==> u == p)
  {
    hide Normalize, Trim, Stale;
    match op
    case PutRule(expected, spec) =>
    case DeleteRule(expected, rule) => assert rule in p.rules ==> p.rules - {rule} != p.rules;
    case DeleteProfile(expected, profile) =>
      assert Trim(profile) in p.profiles ==> Trim(profile) !in p.profiles - {Trim(profile)};
    case ReconcileTargets(current) =>
      var stale := StaleRules(p.rules, current);
      if stale != {} {
        var r :| r in stale;
        assert Downgraded(p.rules, stale)[r] != p.rules[r];
      }
    case _ =>
  }

  /** A write that names an expected revision changes the store only at that revision. */
  lemma ChangesAtExpected(p: Prefs, op: Op)
    requires Changes(p, op) && !op.ReconcileTargets?
    ensures p.revision == op.expected
  {
    hide Normalize, Trim, Stale;
  }

  ghost predicate Path(ps: seq<Prefs>, ops: seq<Op>) {
    |ps| == |ops| + 1 && forall i :: 0 <= i < |ops| ==> ps[i + 1] == Apply(ps[i], ops[i]).0
  }

  lemma {:induction false} RunsKeepSound(ps: seq<Prefs>, ops: seq<Op>, i: nat)
    requires Path(ps, ops) && Sound(ps[0]) && i < |ps|
    ensures Sound(ps[i])
  {
    if i > 0 {
      RunsKeepSound(ps, ops, i - 1);
      OpKeepsSound(ps[i - 1], ops[i - 1]);
    }
  }

  /** The number of changes among the operations from `i` up to `j`. */
  ghost function ChangesIn(ps: seq<Prefs>, ops: seq<Op>, i: nat, j: nat): nat
    requires Path(ps, ops) && i <= j <= |ops|
  {
    if i == j then 0 else ChangesIn(ps, ops, i, j - 1) + if Changes(ps[j - 1], ops[j - 1]) then 1 else 0
  }

  lemma {:induction false} RevisionIsCount(ps: seq<Prefs>, ops: seq<Op>, i: nat, j: nat)
    requires Path(ps, ops) && Sound(ps[0]) && i <= j <= |ops|
    ensures ps[j].revision == (ps[i].revision + ChangesIn(ps, ops, i, j)) % REVISIONS
    ensures ChangesIn(ps, ops, i, j) <= j - i
  {
    hide Apply;
    RunsKeepSound(ps, ops, j);
    if i < j {
      RevisionIsCount(ps, ops, i, j - 1);
      RunsKeepSound(ps, ops, j - 1);
      RevisionCountsChanges(ps[j - 1], ops[j - 1]);
      NextRevision(ps[i].revision + ChangesIn(ps, ops, i, j - 1));
    }
  }

  lemma NextRevision(n: nat)
    ensures Bumped(n % REVISIONS) == (n + 1) % REVISIONS
  {
  }

  /** Two writes with the same expected revision that both change the store have a full turn of revisions between them. */
  lemma WritersExcludeEachOther(ps: seq<Prefs>, ops: seq<Op>, i: nat, j: nat)
    requires Path(ps, ops) && Sound(ps[0]) && i < j < |ops|
    requires !ops[i].ReconcileTargets? && !ops[j].ReconcileTargets? && ops[i].expected == ops[j].expected
    requires Changes(ps[i], ops[i]) && Changes(ps[j], ops[j])
    ensures ChangesIn(ps, ops, i, j) >= REVISIONS && j - i >= REVISIONS
  {
    hide Apply;
    ChangesAtExpected(ps[i], ops[i]);
    ChangesAtExpected(ps[j], ops[j]);
    RevisionIsCount(ps, ops, i, j);
    SomeChange(ps, ops, i, j);
    RunsKeepSound(ps, ops, i);
  }

  lemma {:induction false} SomeChange(ps: seq<Prefs>, ops: seq<Op>, i: nat, j: nat)
    requires Path(ps, ops) && i < j <= |ops| && Changes(ps[i], ops[i])
    ensures ChangesIn(ps, ops, i, j) >= 1
  {
    hide Apply, Changes;
    if i + 1 < j {
      SomeChange(ps, ops, i, j - 1);
    } else {
      assert ChangesIn(ps, ops, i, i) == 0;
    }
  }

  /** The rules that apply for a profile: those in force that are global or belong to it. */
  function EffectiveRules(p: Prefs, profile: string): set<Rule> {
    set r | r in p.rules && p.rules[r].InForce? && (r.profile == "" || (profile != "" && r.profile == profile))
  }

  /** For every slot at most one rule is effective. */
  lemma OneEffectiveRulePerSlot(ps: seq<Prefs>, ops: seq<Op>, i: nat, profile: string, r: Rule, s: Rule)
    requires Path(ps, ops) && Sound(ps[0]) && i < |ps|
    requires {r, s} <= EffectiveRules(ps[i], profile) && r.Slot() == s.Slot()
    ensures r == s
  {
    RunsKeepSound(ps, ops, i);
    assert r in EffectiveRules(ps[i], profile) && s in EffectiveRules(ps[i], profile);
  }

  // ---------------------------------------------------------------------------------------------
  // What each operation means for the rules in force
  // ---------------------------------------------------------------------------------------------

  /** Two rules are about the same thing. */
  predicate Competes(x: Rule, y: Rule) {
    x != y && x.profile == y.profile && x.specificity == y.specificity && x.subject == y.subject && x.condition == y.condition
  }

  /** The rule applies where it should: a global one for every profile, any other for its own profile only. */
  ghost predicate AppliesRightly(p: Prefs, rule: Rule) {
    forall profile :: rule in EffectiveRules(p, profile) <==> rule.profile == "" || rule.profile == profile
  }

  ghost predicate AppliesNowhere(p: Prefs, rule: Rule) {
    forall profile :: rule !in EffectiveRules(p, profile)
  }

  /** A rule is refused for what it says, for its profile, or for the revision, and then nothing changes. */
  lemma PutRuleRefuses(p: Prefs, expected: nat, spec: RuleSpec)
    ensures var (u, r) := PutRuleIn(p, expected, spec);
            && (r == Err(InvalidRequest) <==> Refusable(spec))
            && (r == Err(ProfileNotFound) <==> !Refusable(spec) && Trim(spec.profile) != "" && Trim(spec.profile) !in p.profiles)
            && (r.Err? ==> u == p && r.error in {InvalidRequest, ProfileNotFound, RevisionConflict(expected, p.revision)})
            && (r == Err(RevisionConflict(expected, p.revision)) ==> p.revision != expected)
  {
    hide Normalize, Trim, Refusable;
    NormalizationMeans(spec);
  }

  /**
   A rule that is accepted is stored as the caller wrote it. If none competes with it, it applies from now
   on; otherwise neither it nor its competitors do. No other rule changes.
   */
  lemma PutRuleMeans(p: Prefs, expected: nat, spec: RuleSpec) returns (rule: Rule)
    requires Sound(p) && PutRuleIn(p, expected, spec).1.Ok?
    ensures Says(rule, spec)
    ensures var (u, r) := PutRuleIn(p, expected, spec);
            && u.rules.Keys == p.rules.Keys + {rule} && u.profiles == p.profiles && r.value.revision == u.revision
            && r.value.needsReview == u.rules[rule].NeedsReview? && (r.value.changed <==> rule !in p.rules)
            && (rule !in p.rules && (forall x :: x in p.rules ==> !Competes(x, rule)) ==> AppliesRightly(u, rule))
            && (forall x :: x in p.rules && Competes(x, rule) ==> AppliesNowhere(u, x) && AppliesNowhere(u, rule))
            && (forall x :: x in p.rules && (x == rule || !Competes(x, rule)) ==> u.rules[x] == p.rules[x])
  {
    hide Normalize, Trim, Says;
    NormalizationMeans(spec);
    rule := Normalize(spec).value;
    var (u, r) := PutRuleIn(p, expected, spec);
    assert forall x :: x in p.rules ==> (x in Rivals(p.rules, rule) <==> Competes(x, rule));
  }

  /** Confirming puts a rule in force exactly if it has no competitor; no other rule changes. */
  lemma ConfirmRuleMeans(p: Prefs, expected: nat, rule: Rule)
    requires Sound(p)
    ensures var (u, r) := ConfirmRuleIn(p, expected, rule);
            && (r == Err(RuleNotFound) <==> rule !in p.rules)
            && (r.Ok? <==> rule in p.rules && (p.rules[rule].InForce? ||
                             (p.revision == expected && forall x :: x in p.rules ==> !Competes(x, rule))))
            && (r.Ok? ==> AppliesRightly(u, rule) && !r.value.needsReview && (r.value.changed <==> p.rules[rule].NeedsReview?))
            && u.rules.Keys == p.rules.Keys && u.profiles == p.profiles
            && (forall x :: x in p.rules && (x != rule || r.Err?) ==> u.rules[x] == p.rules[x])
  {
    var (u, r) := ConfirmRuleIn(p, expected, rule);
    assert forall x :: x in p.rules ==> (x in Rivals(p.rules, rule) <==> Competes(x, rule));
    if rule in p.rules && Rivals(p.rules, rule) != {} {
      var x :| x in Rivals(p.rules, rule);
      assert Competes(x, rule);
    }
  }

  /** Deleting takes away this rule at the expected revision, and no other. */
  lemma DeleteRuleMeans(p: Prefs, expected: nat, rule: Rule)
    ensures var (u, r) := DeleteRuleIn(p, expected, rule);
            && (r.Ok? <==> rule !in p.rules || p.revision == expected)
            && (r.Ok? ==> rule !in u.rules && (r.value.changed <==> rule in p.rules) && !r.value.needsReview)
            && u.profiles == p.profiles
            && (forall x :: x != rule || r.Err? ==> (x in u.rules <==> x in p.rules) && (x in p.rules ==> u.rules[x] == p.rules[x]))
  {
  }

  /** A stored profile has the trimmed name and description under the id given, or under one made from its name. */
  lemma PutProfileMeans(p: Prefs, expected: nat, id: string, name: string, description: string)
    ensures var (u, r) := PutProfileIn(p, expected, id, name, description);
            var key := if id == "" then "profile:" + Trim(name) else id;
            && (r == Err(InvalidRequest) <==> Trim(name) == "")
            && (r == Err(NameTaken) ==> exists x :: x in p.profiles && x != key && p.profiles[x].name == Trim(name))
            && (r.Ok? ==> key in u.profiles && u.profiles[key].name == Trim(name) && u.profiles[key].description == Trim(description))
            && (r.Ok? && r.value.changed ==> forall x :: x in p.profiles && x != key ==> p.profiles[x].name != Trim(name))
            && (r.Ok? <==> Trim(name) != "" && ((key in p.profiles && p.profiles[key] == Profile(Trim(name), Trim(description)))
                             || (p.revision == expected && forall x :: x in p.profiles && x != key ==> p.profiles[x].name != Trim(name))))
            && u.rules == p.rules
            && (forall x :: x != key || r.Err? ==> (x in u.profiles <==> x in p.profiles) && (x in p.profiles ==> u.profiles[x] == p.profiles[x]))
  {
    hide Trim;
  }

  /** A deleted profile is gone with exactly the rules that belong to it. */
  lemma DeleteProfileMeans(p: Prefs, expected: nat, profile: string)
    ensures var (u, r) := DeleteProfileIn(p, expected, profile);
            var key := Trim(profile);
            && (r == Err(InvalidRequest) <==> key == "")
            && (r.Ok? <==> key != "" && (key !in p.profiles || p.revision == expected))
            && (r.Ok? && r.value.changed ==>
                  && key in p.profiles && u.profiles.Keys == p.profiles.Keys - {key}
                  && forall x :: x in u.rules <==> x in p.rules && x.profile != key)
            && (r.Ok? && key in p.profiles ==> r.value.changed)
            && (forall x :: x in u.profiles ==> x in p.profiles && u.profiles[x] == p.profiles[x])
            && (forall x :: x in u.rules ==> x in p.rules && u.rules[x] == p.rules[x])
  {
    hide Trim;
  }

  /** A target is not what the rule assumes of it: it is gone, or its assumption has changed. */
  predicate Outdated(targets: Targets, k: (string, string), current: Targets) {
    k in targets && (k !in current || current[k] != targets[k])
  }

  /** Reconciliation sends a rule in force to review exactly if one of its targets, on either side, is outdated. */
  lemma ReconcileMeans(p: Prefs, current: Targets)
    ensures var (u, r) := ReconcileIn(p, current);
            && r.Ok? && u.rules.Keys == p.rules.Keys && u.profiles == p.profiles
            && (forall x :: x in p.rules ==>
                  u.rules[x] == if exists k :: Outdated(x.preferred, k, current) || Outdated(x.deprioritized, k, current)
                                then NeedsReview else p.rules[x])
  {
    hide Stale;
    forall x | x in p.rules
      ensures Stale(x, current) <==> exists k :: Outdated(x.preferred, k, current) || Outdated(x.deprioritized, k, current)
    {
      StaleMeans(x, current);
    }
    assert forall x :: x in p.rules && p.rules[x].InForce? && Stale(x, current) ==> x in StaleRules(p.rules, current);
  }

  lemma StaleMeans(x: Rule, current: Targets)
    ensures Stale(x, current) <==> exists k :: Outdated(x.preferred, k, current) || Outdated(x.deprioritized, k, current)
  {
    if k :| Outdated(x.preferred, k, current) || Outdated(x.deprioritized, k, current) {
      assert k in x.preferred || k in x.deprioritized;
    }
    if Stale(x, current) {
      if k :| k in x.preferred && !(k in current && current[k] == x.preferred[k]) {
        assert Outdated(x.preferred, k, current);
      } else {
        var k :| k in x.deprioritized && !(k in current && current[k] == x.deprioritized[k]);
        assert Outdated(x.deprioritized, k, current);
      }
    }
  }

  // ---------------------------------------------------------------------------------------------
  // The store
  // ---------------------------------------------------------------------------------------------

  class Store {
    var profiles: map<string, Profile>
    var rules: map<Rule, Review>
    var revision: nat

    constructor ()
      ensures View() == Prefs(map[], map[], 0) && Sound(View())
    {
      profiles, rules, revision := map[], map[], 0;
    }

    function View(): Prefs
      reads this
    {
      Prefs(profiles, rules, revision)
    }

    method Bump()
      modifies this`revision
      ensures revision == Bumped(old(revision))
    {
      revision := if revision + 1 >= REVISIONS then (revision + 1) % REVISIONS else revision + 1;
    }

    /** The loops and tests of normalization, in the order of the source. */
    method NormalizeRule(spec: RuleSpec) returns (r: Option<Rule>)
      ensures r == Normalize(spec)
    {
      var subject, condition := Trim(spec.subject), Trim(spec.condition);
      if subject == "" {
        return None;
      }
      match spec.specificity {
        case ConditionalTool => if condition == "" { return None; }
        case _ => if condition != "" { return None; }
      }
      var preferred := CollectTargets(spec.preferred);
      if preferred.None? || |preferred.value| == 0 {
        return None;
      }
      var deprioritized := CollectTargets(spec.deprioritized);
      if deprioritized.None? {
        return None;
      }
      var todo := deprioritized.value.Keys;
      while todo != {}
        invariant todo <= deprioritized.value.Keys
        invariant preferred.value.Keys * (deprioritized.value.Keys - todo) == {}
        decreases |todo|
      {
        var k :| k in todo;
        if k in preferred.value {
          assert k in preferred.value.Keys * deprioritized.value.Keys;
          return None;
        }
        todo := todo - {k};
      }
      r := Some(Rule(Trim(spec.profile), spec.specificity, subject, condition, preferred.value, deprioritized.value));
    }

    method PutRule(expected: nat, spec: RuleSpec) returns (r: Result<Written, Error>)
      modifies this
      ensures (View(), r) == PutRuleIn(old(View()), expected, spec)
    {
      var normal := NormalizeRule(spec);
      if normal.None? { return Err(InvalidRequest); }
      var rule := normal.value;
      if rule.profile != "" && rule.profile !in profiles { return Err(ProfileNotFound); }
      if rule in rules { return Ok(Written(revision, false, rules[rule].NeedsReview?)); }
      if revision != expected { return Err(RevisionConflict(expected, revision)); }
      var rivals := Rivals(rules, rule);
      var review := InForce;
      if |rivals| != 0 {
        review := NeedsReview;
        rules := Downgraded(rules, rivals);
      }
      assert rules == Downgraded(old(rules), rivals);
      rules := rules[rule := review];
      Bump();
      r := Ok(Written(revision, true, review.NeedsReview?));
    }

    method ConfirmRule(expected: nat, rule: Rule) returns (r: Result<Written, Error>)
      modifies this
      ensures (View(), r) == ConfirmRuleIn(old(View()), expected, rule)
    {
      if rule !in rules { return Err(RuleNotFound); }
      if rules[rule].InForce? { return Ok(Written(revision, false, false)); }
      if revision != expected { return Err(RevisionConflict(expected, revision)); }
      if |Rivals(rules, rule)| != 0 { return Err(SlotConflict); }
      rules := rules[rule := InForce];
      Bump();
      r := Ok(Written(revision, true, false));
    }

    method DeleteRule(expected: nat, rule: Rule) returns (r: Result<Written, Error>)
      modifies this
      ensures (View(), r) == DeleteRuleIn(old(View()), expected, rule)
    {
      if rule !in rules { return Ok(Written(revision, false, false)); }
      if revision != expected { return Err(RevisionConflict(expected, revision)); }
      rules := rules - {rule};
      Bump();
      r := Ok(Written(revision, true, false));
    }

    method PutProfile(expected: nat, id: string, name: string, description: string) returns (r: Result<Written, Error>)
      modifies this
      ensures (View(), r) == PutProfileIn(old(View()), expected, id, name, description)
    {
      var profile := Profile(Trim(name), Trim(description));
      if profile.name == "" { return Err(InvalidRequest); }
      var key := id;
      if key == "" {
        key := "profile:" + profile.name;
      }
      if key in profiles && profiles[key] == profile { return Ok(Written(revision, false, false)); }
      if revision != expected { return Err(RevisionConflict(expected, revision)); }
      if exists other :: other in profiles && other != key && profiles[other].name == profile.name { return Err(NameTaken); }
      profiles := profiles[key := profile];
      Bump();
      r := Ok(Written(revision, true, false));
    }

    method DeleteProfile(expected: nat, profile: string) returns (r: Result<Written, Error>)
      modifies this
      ensures (View(), r) == DeleteProfileIn(old(View()), expected, profile)
    {
      var key := Trim(profile);
      if key == "" { return Err(InvalidRequest); }
      if key !in profiles { return Ok(Written(revision, false, false)); }
      if revision != expected { return Err(RevisionConflict(expected, revision)); }
      profiles := profiles - {key};
      rules := map r | r in rules && r.profile != key :: rules[r];
      Bump();
      r := Ok(Written(revision, true, false));
    }

    /** Goes through the rules in force and sends those with a changed target back to review. */
    method ReconcileTargets(current: Targets) returns (r: Result<Written, Error>)
      modifies this
      ensures (View(), r) == ReconcileIn(old(View()), current)
    {
      hide Stale;
      var stale: set<Rule> := {};
      var todo := rules.Keys;
      while todo != {}
        invariant todo <= rules.Keys && View() == old(View())
        invariant stale <= StaleRules(rules, current) && StaleRules(rules, current) - todo <= stale
        decreases |todo|
      {
        var x :| x in todo;
        if rules[x].InForce? && Stale(x, current) {
          stale := stale + {x};
        }
        todo := todo - {x};
      }
      assert stale == StaleRules(rules, current);
      if |stale| == 0 { return Ok(Written(revision, false, false)); }
      rules := Downgraded(rules, stale);
      Bump();
      r := Ok(Written(revision, true, true));
    }
  }
}
