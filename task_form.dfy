/**
 * The stand-alone task form (src/app/components/TaskForm.tsx): it keeps its
 * own task list and a draft task, rejects a draft whose id is blank, appends
 * a copy of the draft and resets it, and toggles dependencies on the draft.
 */
module TaskForm {
  import opened PertTypes

  /** The characters `String.prototype.trim` strips: white space and line terminators. */
  predicate IsJsWhitespace(c: char) {
    || c == '\t' || c == '\n' || c == '\U{0B}' || c == '\U{0C}' || c == '\r' || c == ' '
    || c == '\U{A0}' || c == '\U{1680}' || ('\U{2000}' <= c <= '\U{200A}')
    || c == '\U{2028}' || c == '\U{2029}' || c == '\U{202F}' || c == '\U{205F}'
    || c == '\U{3000}' || c == '\U{FEFF}'
  }

  /** Every character of `s` is white space (the empty string included). */
  predicate IsBlank(s: string) {
    forall i :: 0 <= i < |s| ==> IsJsWhitespace(s[i])
  }

  /** `s` without its leading white space: a suffix of `s` that starts with a visible character. */
  function TrimStart(s: string): (r: string)
    ensures |r| <= |s| && r == s[|s| - |r|..]
    ensures r != [] ==> !IsJsWhitespace(r[0])
    ensures forall i :: 0 <= i < |s| - |r| ==> IsJsWhitespace(s[i])
    decreases |s|
  {
    if s != [] && IsJsWhitespace(s[0]) then TrimStart(s[1..]) else s
  }

  /** `s` without its trailing white space: a prefix of `s` that ends with a visible character. */
  function TrimEnd(s: string): (r: string)
    ensures |r| <= |s| && r == s[..|r|]
    ensures r != [] ==> !IsJsWhitespace(r[|r| - 1])
    ensures forall i :: |r| <= i < |s| ==> IsJsWhitespace(s[i])
    decreases |s|
  {
    if s != [] && IsJsWhitespace(s[|s| - 1]) then TrimEnd(s[..|s| - 1]) else s
  }

  /** `s.trim()`: a slice of `s` that starts and ends with a visible character, or the empty string. */
  function Trim(s: string): (r: string)
    ensures |r| <= |s|
    ensures r != [] ==> !IsJsWhitespace(r[0]) && !IsJsWhitespace(r[|r| - 1])
    ensures var k := |s| - |TrimStart(s)|; k + |r| <= |s| && forall i :: 0 <= i < |r| ==> r[i] == s[k + i]
    ensures var k := |s| - |TrimStart(s)|; forall i :: 0 <= i < k ==> IsJsWhitespace(s[i])
    ensures var k := |s| - |TrimStart(s)|; forall i :: k + |r| <= i < |s| ==> IsJsWhitespace(s[i])
  {
    TrimIsSlice(s);
    var r := TrimEnd(TrimStart(s));
    r
  }

  /** Where the two passes of `Trim` cut `s`. */
  lemma TrimIsSlice(s: string)
    ensures var r := TrimEnd(TrimStart(s));
      r != [] ==> !IsJsWhitespace(r[0]) && !IsJsWhitespace(r[|r| - 1])
    ensures var r := TrimEnd(TrimStart(s)); var k := |s| - |TrimStart(s)|;
      k + |r| <= |s| && forall i :: 0 <= i < |r| ==> r[i] == s[k + i]
    ensures var r := TrimEnd(TrimStart(s)); var k := |s| - |TrimStart(s)|;
      forall i :: k + |r| <= i < |s| ==> IsJsWhitespace(s[i])
  {
    var t := TrimStart(s);
    var r := TrimEnd(t);
    var k := |s| - |t|;
    assert t == s[k..];
    assert r == t[..|r|];
    if r != [] {
      assert r[0] == t[0];
    }
    forall i | k + |r| <= i < |s|
      ensures IsJsWhitespace(s[i])
    {
      assert s[i] == t[i - k];
    }
  }

  /** `!s.trim()` holds exactly when `s` is blank. */
  lemma TrimEmptyIffBlank(s: string)
    ensures Trim(s) == "" <==> IsBlank(s)
  {
    var t := TrimStart(s);
    if t != [] {
      // a visible first character survives the second pass
      assert TrimEnd(t)[0] == t[0];
    }
  }

  /** `deps.filter((d) => d !== dep)`. */
  function RemoveAll(deps: seq<string>, dep: string): (r: seq<string>)
    ensures forall d :: d in r <==> d in deps && d != dep
    decreases |deps|
  {
    if deps == [] then []
    else (if deps[0] != dep then [deps[0]] else []) + RemoveAll(deps[1..], dep)
  }

  /** `toggleDependency`'s new list: remove every occurrence when present, otherwise append. */
  function Toggle(deps: seq<string>, dep: string): (r: seq<string>)
    ensures dep in r <==> dep !in deps
    ensures forall d :: d != dep ==> (d in r <==> d in deps)
    ensures dep !in deps ==> r == deps + [dep]
    ensures dep in deps ==> r == RemoveAll(deps, dep)
  {
    if dep in deps then RemoveAll(deps, dep) else deps + [dep]
  }

  /** Removing from a concatenation removes from each part, so the other entries keep their order. */
  lemma {:induction false} RemoveAllDistributes(a: seq<string>, b: seq<string>, dep: string)
    ensures RemoveAll(a + b, dep) == RemoveAll(a, dep) + RemoveAll(b, dep)
    decreases |a|
  {
    if a != [] {
      assert (a + b)[1..] == a[1..] + b;
      RemoveAllDistributes(a[1..], b, dep);
    } else {
      assert a + b == b;
    }
  }

  /** Removing an entry that is not there changes nothing. */
  lemma {:induction false} RemoveAbsentIsIdentity(deps: seq<string>, dep: string)
    requires dep !in deps
    ensures RemoveAll(deps, dep) == deps
    decreases |deps|
  {
    if deps != [] {
      RemoveAbsentIsIdentity(deps[1..], dep);
    }
  }

  /** Toggling an absent dependency twice gives back the original list. */
  lemma ToggleTwiceRestoresAbsent(deps: seq<string>, dep: string)
    requires dep !in deps
    ensures Toggle(Toggle(deps, dep), dep) == deps
  {
    assert dep in deps + [dep];
    RemoveAllDistributes(deps, [dep], dep);
    RemoveAbsentIsIdentity(deps, dep);
    assert RemoveAll([dep], dep) == [] by {
      assert [dep][1..] == [];
    }
  }

  /** Toggling a present dependency twice moves it, once, to the end. */
  lemma ToggleTwiceMovesPresentToEnd(deps: seq<string>, dep: string)
    requires dep in deps
    ensures Toggle(Toggle(deps, dep), dep) == RemoveAll(deps, dep) + [dep]
  {
  }

  const BlankIdAlert := "Task name cannot be empty."

  /** The draft after a reset: empty id, zero estimates, no dependencies. */
  const EmptyDraft := Task("", 0.0, 0.0, 0.0, [])

  /** The three number inputs of the form. */
  datatype Estimate = OptimisticField | MostLikelyField | PessimisticField

  /** The form's state, and what it has handed to `onTasksUpdated` and `alert`. */
  class Form {
    var tasks: seq<Task>
    var newTask: Task
    var published: seq<seq<Task>>
    var alerts: seq<string>

    constructor ()
      ensures tasks == [] && newTask == EmptyDraft && published == [] && alerts == []
    {
      tasks, newTask, published, alerts := [], EmptyDraft, [], [];
    }

    /** The id input's `onChange`. */
    method EditId(id: string)
      modifies this`newTask
      ensures newTask == old(newTask).(id := id)
    {
      newTask := newTask.(id := id);
    }

    /** One of the estimate inputs' `onChange`, with the number `Number(...)` parsed from its text. */
    method EditEstimate(field: Estimate, value: real)
      modifies this`newTask
      ensures field == OptimisticField ==> newTask == old(newTask).(optimistic := value)
      ensures field == MostLikelyField ==> newTask == old(newTask).(mostLikely := value)
      ensures field == PessimisticField ==> newTask == old(newTask).(pessimistic := value)
    {
      match field {
        case OptimisticField => newTask := newTask.(optimistic := value);
        case MostLikelyField => newTask := newTask.(mostLikely := value);
        case PessimisticField => newTask := newTask.(pessimistic := value);
      }
    }

    /**
     * `handleAddTask`: a blank id raises an alert and changes nothing;
     * otherwise a copy of the draft is appended, the new list is handed to
     * `onTasksUpdated`, and the draft is reset.
     */
    method HandleAddTask() returns (added: bool)
      modifies this`tasks, this`newTask, this`published, this`alerts
      ensures added <==> !IsBlank(old(newTask).id)
      ensures !added ==> tasks == old(tasks) && newTask == old(newTask) && published == old(published)
      ensures !added ==> alerts == old(alerts) + [BlankIdAlert]
      ensures added ==> tasks == old(tasks) + [old(newTask)] && published == old(published) + [tasks]
      ensures added ==> newTask == EmptyDraft && alerts == old(alerts)
    {
      TrimEmptyIffBlank(newTask.id);
      if Trim(newTask.id) == "" {
        alerts := alerts + [BlankIdAlert];
        return false;
      }
      var updated := tasks + [newTask];
      tasks := updated;
      published := published + [updated];
      newTask := EmptyDraft;
      added := true;
    }

    /** `toggleDependency`: the functional update of the draft's dependencies. */
    method ToggleDependency(dep: string)
      modifies this`newTask
      ensures newTask == old(newTask).(dependencies := Toggle(old(newTask).dependencies, dep))
    {
      newTask := newTask.(dependencies := Toggle(newTask.dependencies, dep));
    }
  }
}
