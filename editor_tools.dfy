/**
 * SceneValidator.validate_scene of editor/editor_tools.py: a pass over a
 * scene that lists problems as (type, message) entries.
 *
 * The scene is the part of it the validator reads, as a value: each actor's
 * name and whether each component has an `enabled` attribute; the ui
 * manager, if any, with its `widgets` list (absent on a manager without
 * that attribute) and each widget's rect (absent likewise); and the
 * lambda-script dict in insertion order. Compiling a script in eval mode is
 * Python's own parser, so each script carries the SyntaxError text it
 * raises, if any. A missing attribute raises AttributeError, which the
 * validator catches and turns into one last "Validation failed" entry.
 */
module EditorTools {
  import opened Wrappers
  import opened Strings

  datatype Kind = Error | Warning

  /** One entry of the result: {"type": ..., "message": ...}. */
  datatype Issue = Issue(kind: Kind, message: string)

  /** An actor: its name (None when unset) and, per component, whether it has `enabled`. */
  datatype ActorView = ActorView(name: Option<string>, components: seq<bool>)

  datatype Size = Size(width: int, height: int)

  /** A widget: the name of its class, its name, and its rect's size (None when it has no rect). */
  datatype WidgetView = WidgetView(typeName: string, name: string, rect: Option<Size>)

  /** The ui manager: the name of its class and its `widgets` list (None when it has no such attribute). */
  datatype ManagerView = ManagerView(typeName: string, widgets: Option<seq<WidgetView>>)

  /** A lambda script and the SyntaxError text compiling it raises, if any. */
  datatype ScriptView = ScriptView(text: string, syntaxError: Option<string>)

  /**
   * scene.scene: its actors, its ui manager when it has a true one, and its
   * lambda_scripts dict as (event type, scripts) pairs when it has one.
   */
  datatype SceneView = SceneView(actors: seq<ActorView>, uiManager: Option<ManagerView>,
                                 lambdaScripts: Option<seq<(string, seq<ScriptView>)>>)

  /** f"{name}": None prints as "None". */
  function Show(name: Option<string>): string
  {
    if name.None? then "None" else name.value
  }

  /** `not actor.name or actor.name.strip() == ""`. */
  predicate Blank(name: Option<string>)
  {
    name.None? || Strip(name.value) == ""
  }

  /** The text of the AttributeError for a missing attribute. */
  function AttributeText(typeName: string, attr: string): string
  {
    "'" + typeName + "' object has no attribute '" + attr + "'"
  }

  function NoScene(): Issue { Issue(Error, "No scene provided") }
  function Unnamed(i: nat): Issue { Issue(Warning, "Actor at index " + NatToString(i) + " has no name") }
  function Duplicate(t: string): Issue { Issue(Warning, "Multiple actors with name '" + t + "'") }
  function MissingEnabled(j: nat, name: Option<string>): Issue
  {
    Issue(Error, "Component " + NatToString(j) + " on actor '" + Show(name) + "' missing 'enabled' property")
  }
  function MissingRect(w: WidgetView): Issue { Issue(Error, "UI widget '" + w.name + "' missing rect property") }
  function InvalidSize(w: WidgetView): Issue { Issue(Warning, "UI widget '" + w.name + "' has invalid size") }
  function BadScript(eventType: string, e: string): Issue
  {
    Issue(Error, "Syntax error in " + eventType + " lambda script: " + e)
  }
  function Failed(detail: string): Issue { Issue(Error, "Validation failed: " + detail) }

  /** The first letter of a message; each kind of report begins with its own. */
  function Lead(x: Issue): char
  {
    if |x.message| == 0 then ' ' else x.message[0]
  }

  /** Whether an entry is the one the exception handler adds. */
  predicate IsFailure(x: Issue)
  {
    |x.message| >= 19 && x.message[..19] == "Validation failed: "
  }

  /** len([a for a in actors if a.name == name]). */
  function Named(actors: seq<ActorView>, name: Option<string>): (r: nat)
    ensures r <= |actors|
  {
    if |actors| == 0 then 0 else Named(actors[..|actors| - 1], name) + (if actors[|actors| - 1].name == name then 1 else 0)
  }

  /** The missing-`enabled` errors of the first k components, in order. */
  function MissingOf(cs: seq<bool>, name: Option<string>, k: nat): seq<Issue>
    requires k <= |cs|
  {
    if k == 0 then [] else MissingOf(cs, name, k - 1) + (if cs[k - 1] then [] else [MissingEnabled(k - 1, name)])
  }

  /** The name checks of actor i: the no-name warning, then the duplicate warning. */
  function NameChecks(actors: seq<ActorView>, i: nat): seq<Issue>
    requires i < |actors|
  {
    (if Blank(actors[i].name) then [Unnamed(i)] else [])
    + (if Named(actors, actors[i].name) > 1 then [Duplicate(Show(actors[i].name))] else [])
  }

  /** Everything the loop body reports for actor i. */
  function ActorChecks(actors: seq<ActorView>, i: nat): seq<Issue>
    requires i < |actors|
  {
    NameChecks(actors, i) + MissingOf(actors[i].components, actors[i].name, |actors[i].components|)
  }

  /** The reports of the first k actors, in order. */
  function ActorsIssues(actors: seq<ActorView>, k: nat): seq<Issue>
    requires k <= |actors|
  {
    if k == 0 then [] else ActorsIssues(actors, k - 1) + ActorChecks(actors, k - 1)
  }

  /**
   * The reports of the first k widgets and the AttributeError text, once a
   * widget without a rect has stopped the pass (its missing-rect error is
   * reported first).
   */
  function WidgetsIssues(ws: seq<WidgetView>, k: nat): (seq<Issue>, Option<string>)
    requires k <= |ws|
  {
    if k == 0 then ([], None)
    else
      WidgetStep(WidgetsIssues(ws, k - 1), ws[k - 1])
  }

  /** One step of the widget pass: nothing once stopped, else widget w's reports. */
  function WidgetStep(p: (seq<Issue>, Option<string>), w: WidgetView): (seq<Issue>, Option<string>)
  {
    if p.1.Some? then p
    else if w.rect.None? then (p.0 + [MissingRect(w)], Some(AttributeText(w.typeName, "rect")))
    else (p.0 + (if w.rect.value.width <= 0 || w.rect.value.height <= 0 then [InvalidSize(w)] else []), None)
  }

  /** The syntax errors among the first k scripts of one event type. */
  function ScriptIssues(eventType: string, scripts: seq<ScriptView>, k: nat): seq<Issue>
    requires k <= |scripts|
  {
    if k == 0 then []
    else ScriptIssues(eventType, scripts, k - 1)
         + (if scripts[k - 1].syntaxError.Some? then [BadScript(eventType, scripts[k - 1].syntaxError.value)] else [])
  }

  /** The syntax errors of the first k event types, in dict order. */
  function EventsIssues(ls: seq<(string, seq<ScriptView>)>, k: nat): seq<Issue>
    requires k <= |ls|
  {
    if k == 0 then [] else EventsIssues(ls, k - 1) + ScriptIssues(ls[k - 1].0, ls[k - 1].1, |ls[k - 1].1|)
  }

  function LambdaIssues(s: SceneView): seq<Issue>
  {
    if s.lambdaScripts.None? then [] else EventsIssues(s.lambdaScripts.value, |s.lambdaScripts.value|)
  }

  /** What follows the actor reports: widgets, then scripts, or the failure entry instead of what was not reached. */
  function RestIssues(s: SceneView): seq<Issue>
  {
    if s.uiManager.None? then LambdaIssues(s)
    else if s.uiManager.value.widgets.None? then [Failed(AttributeText(s.uiManager.value.typeName, "widgets"))]
    else
      var ws := s.uiManager.value.widgets.value;
      var w := WidgetsIssues(ws, |ws|);
      if w.1.Some? then w.0 + [Failed(w.1.value)] else w.0 + LambdaIssues(s)
  }

  /** validate_scene: one error without a scene, otherwise the reports in the order of the checks. */
  function Validation(scene: Option<SceneView>): seq<Issue>
  {
    if scene.None? then [NoScene()]
    else ActorsIssues(scene.value.actors, |scene.value.actors|) + RestIssues(scene.value)
  }

  /** validate_scene as the loops compute it. */
  method ValidateScene(scene: Option<SceneView>) returns (issues: seq<Issue>)
    ensures issues == Validation(scene)
  {
    if scene.None? {
      return [NoScene()];
    }
    var s := scene.value;
    var a := ValidateActors(s.actors);
    var rest := ValidateRest(s);
    issues := a + rest;
  }

  /** What the pass reports after the actors: widgets, then scripts, with the failure entry when it raises. */
  method ValidateRest(s: SceneView) returns (rest: seq<Issue>)
    ensures rest == RestIssues(s)
  {
    rest := [];
    if s.uiManager.Some? {
      var m := s.uiManager.value;
      if m.widgets.None? {
        return [Failed(AttributeText(m.typeName, "widgets"))];
      }
      var w, failure := ValidateWidgets(m.widgets.value);
      if failure.Some? {
        return w + [Failed(failure.value)];
      }
      rest := w;
    }
    if s.lambdaScripts.Some? {
      var e := ValidateScripts(s.lambdaScripts.value);
      rest := rest + e;
    } else {
      assert LambdaIssues(s) == [];
      rest := rest + [];
    }
  }

  /** The loop over the actors. */
  method ValidateActors(actors: seq<ActorView>) returns (issues: seq<Issue>)
    ensures issues == ActorsIssues(actors, |actors|)
  {
    issues := [];
    var i := 0;
    while i < |actors|
      invariant 0 <= i <= |actors|
      invariant ReportedUpTo(actors, i, issues)
    {
      var checks := ValidateActor(actors, i);
      ReportedStep(actors, i, issues, checks);
      issues := issues + checks;
      i := i + 1;
    }
  }

  /** The actor loop's state: the reports of the first i actors. */
  ghost predicate ReportedUpTo(actors: seq<ActorView>, i: nat, issues: seq<Issue>)
    requires i <= |actors|
  {
    issues == ActorsIssues(actors, i)
  }

  /** One turn of the actor loop keeps its state. */
  lemma ReportedStep(actors: seq<ActorView>, i: nat, issues: seq<Issue>, checks: seq<Issue>)
    requires i < |actors| && ReportedUpTo(actors, i, issues) && checks == ActorChecks(actors, i)
    ensures ReportedUpTo(actors, i + 1, issues + checks)
  { }

  /** The body of the actor loop, with the inner loop over the actor's components. */
  method ValidateActor(actors: seq<ActorView>, i: nat) returns (issues: seq<Issue>)
    requires i < |actors|
    ensures issues == ActorChecks(actors, i)
  {
    var actor := actors[i];
    issues := [];
    if Blank(actor.name) {
      issues := issues + [Unnamed(i)];
    }
    if Named(actors, actor.name) > 1 {
      issues := issues + [Duplicate(Show(actor.name))];
    }
    assert issues == NameChecks(actors, i);
    var j := 0;
    while j < |actor.components|
      invariant 0 <= j <= |actor.components|
      invariant issues == NameChecks(actors, i) + MissingOf(actor.components, actor.name, j)
    {
      if !actor.components[j] {
        issues := issues + [MissingEnabled(j, actor.name)];
      }
      j := j + 1;
    }
  }

  /** The loop over the widgets; a widget without a rect stops it. */
  method ValidateWidgets(ws: seq<WidgetView>) returns (issues: seq<Issue>, failure: Option<string>)
    ensures (issues, failure) == WidgetsIssues(ws, |ws|)
  {
    issues := [];
    var k := 0;
    while k < |ws|
      invariant 0 <= k <= |ws|
      invariant WidgetsIssues(ws, k) == (issues, None)
    {
      var w := ws[k];
      assert WidgetsIssues(ws, k + 1) == WidgetStep(WidgetsIssues(ws, k), w);
      if w.rect.None? {
        issues := issues + [MissingRect(w)];
        failure := Some(AttributeText(w.typeName, "rect"));
        StoppedStays(ws, k + 1, |ws|);
        return;
      }
      ghost var before := issues;
      if w.rect.value.width <= 0 || w.rect.value.height <= 0 {
        issues := issues + [InvalidSize(w)];
      }
      assert WidgetStep((before, None), w).1 == None;
      assert WidgetStep((before, None), w).0 == issues;
      k := k + 1;
    }
    failure := None;
  }

  /** The loop over the lambda-script dict, with the inner loop over each event's scripts. */
  method ValidateScripts(ls: seq<(string, seq<ScriptView>)>) returns (issues: seq<Issue>)
    ensures issues == EventsIssues(ls, |ls|)
  {
    issues := [];
    var i := 0;
    while i < |ls|
      invariant 0 <= i <= |ls|
      invariant issues == EventsIssues(ls, i)
    {
      var (eventType, scripts) := ls[i];
      var base := issues;
      var j := 0;
      while j < |scripts|
        invariant 0 <= j <= |scripts|
        invariant issues == base + ScriptIssues(eventType, scripts, j)
      {
        if scripts[j].syntaxError.Some? {
          issues := issues + [BadScript(eventType, scripts[j].syntaxError.value)];
        }
        j := j + 1;
      }
      i := i + 1;
    }
  }

  /** Once a widget without a rect has stopped the pass, later widgets change nothing. */
  lemma {:induction false} StoppedStays(ws: seq<WidgetView>, k: nat, n: nat)
    requires k <= n <= |ws|
    requires WidgetsIssues(ws, k).1.Some?
    ensures WidgetsIssues(ws, n) == WidgetsIssues(ws, k)
    decreases n - k
  {
    if k < n {
      StoppedStays(ws, k, n - 1);
    }
  }

  /** A report is in the actor reports exactly when it is in the report of some actor. */
  lemma {:induction false} ActorsIssuesMembers(actors: seq<ActorView>, k: nat, x: Issue)
    requires k <= |actors|
    ensures x in ActorsIssues(actors, k) <==> exists i :: 0 <= i < k && x in ActorChecks(actors, i)
  {
    if x in ActorsIssues(actors, k) {
      var i := ActorOf(actors, k, x);
    }
    if exists i :: 0 <= i < k && x in ActorChecks(actors, i) {
      var i :| 0 <= i < k && x in ActorChecks(actors, i);
      ActorsIssuesHas(actors, i, k, x);
    }
  }

  /** The actor whose report holds a given actor report. */
  lemma ActorOf(actors: seq<ActorView>, k: nat, x: Issue) returns (i: nat)
    requires k <= |actors|
    requires x in ActorsIssues(actors, k)
    ensures i < k && x in ActorChecks(actors, i)
  {
    var parts := AllChecks(actors);
    ActorsIssuesConcat(actors, k);
    i := PartOf(parts[..k], x);
    assert parts[..k][i] == ActorChecks(actors, i);
  }

  /** The report of actor i is part of the reports of the first k actors, for k > i. */
  lemma ActorsIssuesHas(actors: seq<ActorView>, i: nat, k: nat, x: Issue)
    requires i < k <= |actors|
    requires x in ActorChecks(actors, i)
    ensures x in ActorsIssues(actors, k)
  {
    var parts := AllChecks(actors);
    ActorsIssuesConcat(actors, k);
    assert parts[..k][i] == ActorChecks(actors, i);
    PartIn(parts[..k], i, x);
  }

  /** Each actor's report, in actor order. */
  function AllChecks(actors: seq<ActorView>): (r: seq<seq<Issue>>)
    ensures |r| == |actors|
  {
    seq(|actors|, i requires 0 <= i < |actors| => ActorChecks(actors, i))
  }

  function Concat<T>(parts: seq<seq<T>>): seq<T>
  {
    if |parts| == 0 then [] else Concat(parts[..|parts| - 1]) + parts[|parts| - 1]
  }

  lemma {:induction false} ActorsIssuesConcat(actors: seq<ActorView>, k: nat)
    requires k <= |actors|
    ensures ActorsIssues(actors, k) == Concat(AllChecks(actors)[..k])
  {
    if k > 0 {
      var parts := AllChecks(actors);
      ActorsIssuesConcat(actors, k - 1);
      ConcatLast(parts, k);
      assert parts[k - 1] == ActorChecks(actors, k - 1);
    }
  }

  /** Concatenating the first k parts appends the k-th to the first k - 1. */
  lemma ConcatLast<T>(parts: seq<seq<T>>, k: nat)
    requires 0 < k <= |parts|
    ensures Concat(parts[..k]) == Concat(parts[..k - 1]) + parts[k - 1]
  {
    assert parts[..k][..k - 1] == parts[..k - 1];
  }

  lemma {:induction false} PartOf<T>(parts: seq<seq<T>>, x: T) returns (i: nat)
    requires x in Concat(parts)
    ensures i < |parts| && x in parts[i]
  {
    var n := |parts| - 1;
    if x in parts[n] {
      i := n;
    } else {
      i := PartOf(parts[..n], x);
      assert parts[..n][i] == parts[i];
    }
  }

  lemma {:induction false} PartIn<T>(parts: seq<seq<T>>, i: nat, x: T)
    requires i < |parts| && x in parts[i]
    ensures x in Concat(parts)
  {
    var n := |parts| - 1;
    if i < n {
      assert parts[..n][i] == parts[i];
      PartIn(parts[..n], i, x);
    }
  }

  /** Every missing-`enabled` report is an error that begins "Component". */
  lemma {:induction false} MissingOfShape(cs: seq<bool>, name: Option<string>, k: nat, x: Issue)
    requires k <= |cs|
    requires x in MissingOf(cs, name, k)
    ensures x.kind == Error && Lead(x) == 'C'
  {
    if x !in MissingOf(cs, name, k - 1) {
      assert x == MissingEnabled(k - 1, name);
    } else {
      MissingOfShape(cs, name, k - 1, x);
    }
  }

  /** Every widget report begins "UI widget". */
  lemma {:induction false} WidgetsShape(ws: seq<WidgetView>, k: nat, x: Issue)
    requires k <= |ws|
    requires x in WidgetsIssues(ws, k).0
    ensures Lead(x) == 'U'
  {
    var p := WidgetsIssues(ws, k - 1);
    if p.1.None? && x !in p.0 {
      var w := ws[k - 1];
      assert x == MissingRect(w) || x == InvalidSize(w);
    } else {
      WidgetsShape(ws, k - 1, x);
    }
  }

  /** Every script report is an error that begins "Syntax". */
  lemma {:induction false} ScriptsShape(ls: seq<(string, seq<ScriptView>)>, k: nat, x: Issue)
    requires k <= |ls|
    requires x in EventsIssues(ls, k)
    ensures x.kind == Error && Lead(x) == 'S'
  {
    if x in EventsIssues(ls, k - 1) {
      ScriptsShape(ls, k - 1, x);
    } else {
      ScriptShape(ls[k - 1].0, ls[k - 1].1, |ls[k - 1].1|, x);
    }
  }

  lemma {:induction false} ScriptShape(eventType: string, scripts: seq<ScriptView>, k: nat, x: Issue)
    requires k <= |scripts|
    requires x in ScriptIssues(eventType, scripts, k)
    ensures x.kind == Error && Lead(x) == 'S'
  {
    if x in ScriptIssues(eventType, scripts, k - 1) {
      ScriptShape(eventType, scripts, k - 1, x);
    } else {
      assert x == BadScript(eventType, scripts[k - 1].syntaxError.value);
    }
  }

  /** The no-name warning of actor i names i. */
  lemma UnnamedIndex(i: nat, i': nat)
    ensures Unnamed(i) == Unnamed(i') ==> i == i'
  {
    if Unnamed(i) == Unnamed(i') {
      var m := Unnamed(i).message;
      var digits := NatToString(i);
      assert m == "Actor at index " + digits + " has no name";
      assert m[15..|m| - 12] == digits;
      assert m[15..|m| - 12] == NatToString(i');
      NatToStringInjective(i, i');
    }
  }

  /** The duplicate warning determines the name it prints. */
  lemma DuplicateText(t: string, t': string)
    ensures Duplicate(t) == Duplicate(t') ==> t == t'
  {
    if Duplicate(t) == Duplicate(t') {
      var m := Duplicate(t).message;
      assert m[27..|m| - 1] == t;
      assert m[27..|m| - 1] == t';
    }
  }

  lemma LambdaShape(s: SceneView, x: Issue)
    requires x in LambdaIssues(s)
    ensures x.kind == Error && Lead(x) == 'S'
  {
    ScriptsShape(s.lambdaScripts.value, |s.lambdaScripts.value|, x);
  }

  /** The reports after the actors' begin "UI widget", or are errors: script errors and the failure entry. */
  lemma RestShape(s: SceneView, x: Issue)
    requires x in RestIssues(s)
    ensures x.kind == Error || Lead(x) == 'U'
  {
    if s.uiManager.None? {
      LambdaShape(s, x);
    } else if s.uiManager.value.widgets.Some? {
      var ws := s.uiManager.value.widgets.value;
      var w := WidgetsIssues(ws, |ws|);
      if x in w.0 {
        WidgetsShape(ws, |ws|, x);
      } else if w.1.None? {
        LambdaShape(s, x);
      }
    }
  }

  /** An actor's own report holds its no-name warning exactly when its name is blank. */
  lemma UnnamedOwn(actors: seq<ActorView>, i: nat, j: nat)
    requires i < |actors| && j < |actors|
    ensures Unnamed(j) in ActorChecks(actors, i) <==> i == j && Blank(actors[i].name)
  {
    var a := actors[i];
    var x := Unnamed(j);
    assert Lead(x) == 'A';
    if x in MissingOf(a.components, a.name, |a.components|) {
      MissingOfShape(a.components, a.name, |a.components|, x);
    } else if x in NameChecks(actors, i) {
      assert Lead(Duplicate(Show(a.name))) == 'M';
      UnnamedIndex(i, j);
    }
  }

  /**
   * An actor with an empty or blank name is warned about, by its index, and
   * no warning of that form is reported for an actor with a name.
   */
  lemma UnnamedWarning(s: SceneView, i: nat)
    requires i < |s.actors|
    ensures Unnamed(i) in Validation(Some(s)) <==> Blank(s.actors[i].name)
  {
    var x := Unnamed(i);
    ActorsIssuesMembers(s.actors, |s.actors|, x);
    if x in RestIssues(s) {
      RestShape(s, x);
    }
    if Blank(s.actors[i].name) {
      UnnamedOwn(s.actors, i, i);
    } else {
      forall j | 0 <= j < |s.actors|
        ensures x !in ActorChecks(s.actors, j)
      {
        UnnamedOwn(s.actors, j, i);
      }
    }
  }

  /** The only report of the form "Multiple actors ..." in an actor's report is its duplicate warning. */
  lemma DuplicateOwn(actors: seq<ActorView>, i: nat, t: string)
    requires i < |actors|
    ensures Duplicate(t) in ActorChecks(actors, i) <==> Show(actors[i].name) == t && Named(actors, actors[i].name) > 1
  {
    var a := actors[i];
    var x := Duplicate(t);
    assert Lead(x) == 'M';
    if x in MissingOf(a.components, a.name, |a.components|) {
      MissingOfShape(a.components, a.name, |a.components|, x);
    } else if x in NameChecks(actors, i) {
      assert Lead(Unnamed(i)) == 'A';
      DuplicateText(Show(a.name), t);
    }
  }

  /**
   * A duplicate-name warning for a name is reported exactly when some actor
   * with that name shares it with another actor.
   */
  lemma DuplicateWarning(s: SceneView, t: string)
    ensures Duplicate(t) in Validation(Some(s)) <==>
      exists i :: 0 <= i < |s.actors| && Show(s.actors[i].name) == t && Named(s.actors, s.actors[i].name) > 1
  {
    var x := Duplicate(t);
    ActorsIssuesMembers(s.actors, |s.actors|, x);
    if x in RestIssues(s) {
      RestShape(s, x);
    }
    forall i | 0 <= i < |s.actors|
      ensures x in ActorChecks(s.actors, i) <==> Show(s.actors[i].name) == t && Named(s.actors, s.actors[i].name) > 1
    {
      DuplicateOwn(s.actors, i, t);
    }
  }

  /** The reports of the first k widgets lead those of any later count. */
  lemma {:induction false} WidgetsPrefix(ws: seq<WidgetView>, k: nat, n: nat)
    requires k <= n <= |ws|
    ensures WidgetsIssues(ws, k).0 <= WidgetsIssues(ws, n).0
    ensures WidgetsIssues(ws, n).1.None? ==> WidgetsIssues(ws, k).1.None?
    decreases n - k
  {
    if k < n {
      WidgetsPrefix(ws, k, n - 1);
    }
  }

  /**
   * A widget reached by the pass (every widget before it has a rect) whose
   * width or height is not positive is warned about.
   */
  lemma InvalidSizeWarning(s: SceneView, k: nat)
    requires s.uiManager.Some? && s.uiManager.value.widgets.Some?
    requires k < |s.uiManager.value.widgets.value|
    requires forall j :: 0 <= j < k ==> s.uiManager.value.widgets.value[j].rect.Some?
    requires var w := s.uiManager.value.widgets.value[k];
      w.rect.Some? && (w.rect.value.width <= 0 || w.rect.value.height <= 0)
    ensures InvalidSize(s.uiManager.value.widgets.value[k]) in Validation(Some(s))
  {
    var ws := s.uiManager.value.widgets.value;
    var x := InvalidSize(ws[k]);
    ReachedAll(ws, k);
    var p := WidgetsIssues(ws, k);
    assert WidgetsIssues(ws, k + 1) == WidgetStep(p, ws[k]);
    assert WidgetStep(p, ws[k]).0 == p.0 + [x];
    assert x in WidgetsIssues(ws, k + 1).0;
    WidgetsPrefix(ws, k + 1, |ws|);
    WidgetReportInRest(s, x);
    var v := Validation(Some(s));
    assert v == ActorsIssues(s.actors, |s.actors|) + RestIssues(s);
  }

  /** A widget report is among the reports that follow the actors'. */
  lemma WidgetReportInRest(s: SceneView, x: Issue)
    requires s.uiManager.Some? && s.uiManager.value.widgets.Some?
    requires x in WidgetsIssues(s.uiManager.value.widgets.value, |s.uiManager.value.widgets.value|).0
    ensures x in RestIssues(s)
  {
  }

  /** With a rect on every widget before k, the pass has not stopped before k. */
  lemma {:induction false} ReachedAll(ws: seq<WidgetView>, k: nat)
    requires k <= |ws|
    requires forall j :: 0 <= j < k ==> ws[j].rect.Some?
    ensures WidgetsIssues(ws, k).1.None?
  {
    if k > 0 {
      ReachedAll(ws, k - 1);
    }
  }

  /** None of the reports of actors, widgets and scripts looks like the failure entry. */
  lemma NotFailure(x: Issue)
    requires Lead(x) in {'A', 'M', 'C', 'U', 'S'}
    ensures !IsFailure(x)
  {
    if |x.message| >= 19 {
      assert x.message[..19][0] == x.message[0];
    }
  }

  lemma ActorsNotFailure(actors: seq<ActorView>, x: Issue)
    requires x in ActorsIssues(actors, |actors|)
    ensures !IsFailure(x)
  {
    ActorsIssuesMembers(actors, |actors|, x);
    var i :| 0 <= i < |actors| && x in ActorChecks(actors, i);
    ActorChecksLead(actors, i, x);
    NotFailure(x);
  }

  /** Every report of one actor begins "Actor", "Multiple" or "Component". */
  lemma ActorChecksLead(actors: seq<ActorView>, i: nat, x: Issue)
    requires i < |actors|
    requires x in ActorChecks(actors, i)
    ensures Lead(x) in {'A', 'M', 'C'}
  {
    var a := actors[i];
    if x in MissingOf(a.components, a.name, |a.components|) {
      MissingOfShape(a.components, a.name, |a.components|, x);
    } else {
      assert x in NameChecks(actors, i);
      assert x == Unnamed(i) || x == Duplicate(Show(a.name));
    }
  }

  /** Whether the pass raises: a ui manager without `widgets`, or a widget without a rect. */
  predicate Raises(s: SceneView)
  {
    s.uiManager.Some? &&
    (s.uiManager.value.widgets.None? || WidgetsIssues(s.uiManager.value.widgets.value, |s.uiManager.value.widgets.value|).1.Some?)
  }

  /**
   * An exception does not propagate: it becomes exactly one error entry,
   * the last one, after the reports made before it; without one there is no
   * such entry.
   */
  lemma FailureIsLast(s: SceneView)
    ensures var r := Validation(Some(s));
      (Raises(s) <==> |r| > 0 && IsFailure(r[|r| - 1]) && r[|r| - 1].kind == Error)
      && forall i :: 0 <= i < |r| - 1 ==> !IsFailure(r[i])
  {
    var a := ActorsIssues(s.actors, |s.actors|);
    var r := Validation(Some(s));
    var before := Reported(s);
    assert r == a + before + (if Raises(s) then [r[|r| - 1]] else []);
    forall x | x in a + before
      ensures !IsFailure(x)
    {
      if x in a {
        ActorsNotFailure(s.actors, x);
      } else {
        ReportedShape(s, x);
        NotFailure(x);
      }
    }
    if Raises(s) {
      assert IsFailure(r[|r| - 1]);
    }
    forall i | 0 <= i < |r| - (if Raises(s) then 1 else 0)
      ensures !IsFailure(r[i])
    {
      assert r[i] in a + before;
    }
  }

  /** The reports after the actors' up to the failure entry, or all of them without one. */
  function Reported(s: SceneView): (r: seq<Issue>)
    ensures RestIssues(s) == r + if Raises(s) then [RestIssues(s)[|RestIssues(s)| - 1]] else []
    ensures Raises(s) ==> IsFailure(RestIssues(s)[|RestIssues(s)| - 1])
  {
    if s.uiManager.None? then LambdaIssues(s)
    else if s.uiManager.value.widgets.None? then []
    else
      var ws := s.uiManager.value.widgets.value;
      var w := WidgetsIssues(ws, |ws|);
      if w.1.Some? then w.0 else w.0 + LambdaIssues(s)
  }

  lemma ReportedShape(s: SceneView, x: Issue)
    requires x in Reported(s)
    ensures Lead(x) == 'U' || Lead(x) == 'S'
  {
    if s.uiManager.None? {
      LambdaShape(s, x);
    } else {
      var ws := s.uiManager.value.widgets.value;
      var w := WidgetsIssues(ws, |ws|);
      if x in w.0 {
        WidgetsShape(ws, |ws|, x);
      } else {
        LambdaShape(s, x);
      }
    }
  }
}
