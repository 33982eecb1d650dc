/**
 * The message-annotation validator: among the methods of one logger interface,
 * overloads sharing a simple name may not both carry the @Message annotation
 * when one directly follows the other in that name's group.
 *
 * The scan (`Validate`) and the name lookup (`FindByName`) are imperative, as
 * in the source; each is proved against a reference function, and the
 * reference functions are characterised by the lemmas at the end.
 */
module MessageAnnotationValidator {

  /** An executable element as the validator sees it: its simple name, whether
      it carries the @Message annotation, and an identity telling overloads apart. */
  datatype Method = Method(name: string, annotated: bool, id: nat)

  /** A validation error: the offending element and the fully qualified name of
      the annotation the message text refers to. */
  datatype ValidationError = ValidationError(element: Method, annotation: string)

  /** The annotation checked for, as `Message.class.getName()` spells it. */
  const MessageAnnotation: string := "org.jboss.logging.Message"

  /** The error reported against `m`. */
  function Conflict(m: Method): ValidationError
  {
    ValidationError(m, MessageAnnotation)
  }

  /** The simple names occurring in `ms`. */
  function NamesOf(ms: seq<Method>): set<string>
  {
    set m | m in ms :: m.name
  }

  // ---------------------------------------------------------------------------
  // Reference definitions
  // ---------------------------------------------------------------------------

  /** The methods of `ms` named `name`, in their order in `ms`. */
  function FilterByName(ms: seq<Method>, name: string): (r: seq<Method>)
    ensures |r| <= |ms|
  {
    if ms == [] then []
    else
      var last := ms[|ms| - 1];
      FilterByName(ms[..|ms| - 1], name) + (if last.name == name then [last] else [])
  }

  /** The errors for one name group: one for every member that is annotated and
      whose immediate predecessor in the group is annotated too. */
  function GroupErrors(group: seq<Method>): (r: seq<ValidationError>)
    ensures |r| <= if group == [] then 0 else |group| - 1
  {
    if |group| < 2 then []
    else
      var n := |group|;
      GroupErrors(group[..n - 1])
        + (if group[n - 2].annotated && group[n - 1].annotated then [Conflict(group[n - 1])] else [])
  }

  /** The distinct names of `ms`, each once, in order of first occurrence. */
  function DistinctNames(ms: seq<Method>): (names: seq<string>)
    ensures |names| <= |ms|
  {
    if ms == [] then []
    else
      var prefix := DistinctNames(ms[..|ms| - 1]);
      var last := ms[|ms| - 1];
      if last.name in prefix then prefix else prefix + [last.name]
  }

  /** The errors of the groups named in `names`, group after group. */
  function ErrorsForNames(ms: seq<Method>, names: seq<string>): seq<ValidationError>
  {
    if names == [] then []
    else ErrorsForNames(ms, names[..|names| - 1]) + GroupErrors(FilterByName(ms, names[|names| - 1]))
  }

  /** Everything the validator reports for `ms`: each name's group is scanned
      once, in order of the name's first occurrence. */
  function Validation(ms: seq<Method>): seq<ValidationError>
  {
    ErrorsForNames(ms, DistinctNames(ms))
  }

  /** The index of the last method before position `hi` named `name`, or -1
      when there is none. */
  function LastIndexBefore(ms: seq<Method>, name: string, hi: int): (k: int)
    requires 0 <= hi <= |ms|
    ensures -1 <= k < hi
    decreases hi
  {
    if hi == 0 then -1
    else if ms[hi - 1].name == name then hi - 1
    else LastIndexBefore(ms, name, hi - 1)
  }

  /** The method at `i` is annotated and so is the previous method of the same
      simple name. */
  predicate ConflictAt(ms: seq<Method>, i: int)
    requires 0 <= i < |ms|
  {
    var j := LastIndexBefore(ms, ms[i].name, i);
    ms[i].annotated && j >= 0 && ms[j].annotated
  }

  // ---------------------------------------------------------------------------
  // The operations
  // ---------------------------------------------------------------------------

  /** Collects the methods named `methodName`, keeping their relative order. */
  method FindByName(methods: seq<Method>, methodName: string) returns (result: seq<Method>)
    ensures result == FilterByName(methods, methodName)
  {
    result := [];
    for i := 0 to |methods|
      invariant result == FilterByName(methods[..i], methodName)
    {
      assert methods[..i + 1][..i] == methods[..i];
      if methodName == methods[i].name {
        result := result + [methods[i]];
      }
    }
    assert methods[..|methods|] == methods;
  }

  /** Scans one name's overloads in order, remembering whether the previous
      one carried the annotation; reports each annotated overload whose
      predecessor did too. */
  method ScanOverloads(likeMethods: seq<Method>) returns (errors: seq<ValidationError>)
    ensures errors == GroupErrors(likeMethods)
  {
    errors := [];
    var foundFirst := false;
    for j := 0 to |likeMethods|
      invariant errors == GroupErrors(likeMethods[..j])
      invariant foundFirst == (j > 0 && likeMethods[j - 1].annotated)
    {
      GroupErrorsStep(likeMethods, j);
      var found := likeMethods[j].annotated;
      if foundFirst && found {
        errors := errors + [Conflict(likeMethods[j])];
      }
      foundFirst := found;
    }
    assert likeMethods[..|likeMethods|] == likeMethods;
  }

  /** Visits every name once, at its first occurrence, and scans its group,
      remembering whether the previous member was annotated. */
  method Validate(elementMethods: seq<Method>) returns (errorMessages: seq<ValidationError>)
    ensures errorMessages == Validation(elementMethods)
    ensures elementMethods == [] ==> errorMessages == []
  {
    errorMessages := [];
    var methodNames: set<string> := {};
    ghost var scanned: seq<string> := [];
    for i := 0 to |elementMethods|
      invariant scanned == DistinctNames(elementMethods[..i])
      invariant forall n :: n in methodNames <==> n in scanned
      invariant errorMessages == ErrorsForNames(elementMethods, scanned)
    {
      var current := elementMethods[i];
      // HashSet.add: true exactly when the name was not yet present
      var added := current.name !in methodNames;
      methodNames := methodNames + {current.name};
      if added {
        var likeMethods := FindByName(elementMethods, current.name);
        var groupErrors := ScanOverloads(likeMethods);
        errorMessages := errorMessages + groupErrors;
        ErrorsForNamesSnoc(elementMethods, scanned, current.name);
        scanned := scanned + [current.name];
      }
      DistinctNamesStep(elementMethods, i);
    }
    assert elementMethods[..|elementMethods|] == elementMethods;
  }

  // ---------------------------------------------------------------------------
  // Properties of the reference definitions
  // ---------------------------------------------------------------------------

  lemma ErrorsForNamesSnoc(ms: seq<Method>, names: seq<string>, name: string)
    ensures ErrorsForNames(ms, names + [name]) == ErrorsForNames(ms, names) + GroupErrors(FilterByName(ms, name))
  {
    assert (names + [name])[..|names|] == names;
  }

  lemma DistinctNamesStep(ms: seq<Method>, i: int)
    requires 0 <= i < |ms|
    ensures DistinctNames(ms[..i + 1]) ==
      if ms[i].name in DistinctNames(ms[..i]) then DistinctNames(ms[..i])
      else DistinctNames(ms[..i]) + [ms[i].name]
  {
    assert ms[..i + 1][..i] == ms[..i];
  }

  /** Filtering distributes over concatenation: the relative order of the
      methods kept is their order in the input. */
  lemma {:induction false} FilterByNameAppend(a: seq<Method>, b: seq<Method>, name: string)
    ensures FilterByName(a + b, name) == FilterByName(a, name) + FilterByName(b, name)
  {
    if b == [] {
      assert a + b == a;
    } else {
      var b' := b[..|b| - 1];
      assert (a + b)[..|a + b| - 1] == a + b';
      FilterByNameAppend(a, b', name);
    }
  }

  /** The group of a name holds exactly the input methods of that name. */
  lemma {:induction false} FilterByNameMembers(ms: seq<Method>, name: string, m: Method)
    ensures m in FilterByName(ms, name) <==> m in ms && m.name == name
  {
    if ms != [] {
      var p := ms[..|ms| - 1];
      FilterByNameMembers(p, name, m);
      assert ms == p + [ms[|ms| - 1]];
    }
  }

  /** Within a group, an error names the member at position `i` exactly when it
      and the member before it are both annotated. */
  lemma GroupErrorsCharacterization(group: seq<Method>, e: ValidationError)
    ensures e in GroupErrors(group) <==>
      exists i :: 1 <= i < |group| && group[i - 1].annotated && group[i].annotated && e == Conflict(group[i])
  {
    if e in GroupErrors(group) {
      GroupErrorReported(group, e);
    } else if exists i :: 1 <= i < |group| && group[i - 1].annotated && group[i].annotated && e == Conflict(group[i]) {
      var i :| 1 <= i < |group| && group[i - 1].annotated && group[i].annotated && e == Conflict(group[i]);
      GroupErrorReports(group, i);
    }
  }

  lemma {:induction false} GroupErrorReported(group: seq<Method>, e: ValidationError)
    requires e in GroupErrors(group)
    ensures exists i :: 1 <= i < |group| && group[i - 1].annotated && group[i].annotated && e == Conflict(group[i])
  {
    var n := |group|;
    var p := group[..n - 1];
    var last := if group[n - 2].annotated && group[n - 1].annotated then [Conflict(group[n - 1])] else [];
    GroupErrorsLast(group);
    if e in GroupErrors(p) {
      GroupErrorReported(p, e);
      var i :| 1 <= i < |p| && p[i - 1].annotated && p[i].annotated && e == Conflict(p[i]);
      assert p[i - 1] == group[i - 1] && p[i] == group[i];
    } else {
      assert e in last;
      assert 1 <= n - 1 < n && group[n - 2].annotated && group[n - 1].annotated && e == Conflict(group[n - 1]);
    }
  }

  lemma {:induction false} GroupErrorReports(group: seq<Method>, i: int)
    requires 1 <= i < |group| && group[i - 1].annotated && group[i].annotated
    ensures Conflict(group[i]) in GroupErrors(group)
  {
    var p := group[..|group| - 1];
    GroupErrorsLast(group);
    if i < |p| {
      assert p[i - 1] == group[i - 1] && p[i] == group[i];
      GroupErrorReports(p, i);
    }
  }

  /** The last step of `GroupErrors`: the error, if any, of the last member. */
  lemma GroupErrorsLast(group: seq<Method>)
    requires |group| >= 2
    ensures var n := |group|;
      GroupErrors(group) == GroupErrors(group[..n - 1])
        + (if group[n - 2].annotated && group[n - 1].annotated then [Conflict(group[n - 1])] else [])
  {
  }

  /** A group with at most one annotated member produces no errors. */
  lemma GroupErrorsSingleAnnotated(group: seq<Method>)
    requires forall i, j :: 0 <= i < j < |group| && group[i].annotated ==> !group[j].annotated
    ensures GroupErrors(group) == []
  {
    if GroupErrors(group) != [] {
      var e := GroupErrors(group)[0];
      GroupErrorsCharacterization(group, e);
    }
  }

  /** When every member of a non-empty group is annotated, every member but the
      first is reported, in group order. */
  lemma {:induction false} GroupErrorsAllAnnotated(group: seq<Method>)
    requires group != []
    requires forall i :: 0 <= i < |group| ==> group[i].annotated
    ensures |GroupErrors(group)| == |group| - 1
    ensures forall i :: 0 <= i < |group| - 1 ==> GroupErrors(group)[i] == Conflict(group[i + 1])
  {
    if |group| >= 2 {
      var p := group[..|group| - 1];
      GroupErrorsAllAnnotated(p);
    }
  }

  /** When the members of a group are distinct, the first one is never reported. */
  lemma GroupFirstNeverReported(group: seq<Method>)
    requires group != []
    requires forall i, j :: 0 <= i < j < |group| ==> group[i] != group[j]
    ensures Conflict(group[0]) !in GroupErrors(group)
  {
    GroupErrorsCharacterization(group, Conflict(group[0]));
  }

  /** `LastIndexBefore` finds the last earlier method with the name, and no
      method after it (and before `hi`) has that name. */
  lemma {:induction false} LastIndexBeforeSpec(ms: seq<Method>, name: string, hi: int)
    requires 0 <= hi <= |ms|
    ensures var k := LastIndexBefore(ms, name, hi);
      (k == -1 ==> forall j :: 0 <= j < hi ==> ms[j].name != name)
      && (k >= 0 ==> ms[k].name == name && forall j :: k < j < hi ==> ms[j].name != name)
  {
    if hi > 0 && ms[hi - 1].name != name {
      LastIndexBeforeSpec(ms, name, hi - 1);
    }
  }

  /** Looking back from `hi` only involves the methods before `hi`. */
  lemma {:induction false} LastIndexBeforePrefix(ms: seq<Method>, name: string, hi: int, n: int)
    requires 0 <= hi <= n <= |ms|
    ensures LastIndexBefore(ms, name, hi) == LastIndexBefore(ms[..n], name, hi)
  {
    if hi > 0 {
      LastIndexBeforePrefix(ms, name, hi - 1, n);
    }
  }

  /** The last element of a name's group is the method `LastIndexBefore` finds
      from the end of the input. */
  lemma {:induction false} FilterByNameLastIndex(ms: seq<Method>, name: string)
    ensures var g, k := FilterByName(ms, name), LastIndexBefore(ms, name, |ms|);
      (g == [] <==> k == -1) && (g != [] ==> g[|g| - 1] == ms[k])
  {
    if ms != [] {
      var p := ms[..|ms| - 1];
      FilterByNameLastIndex(p, name);
      LastIndexBeforePrefix(ms, name, |p|, |p|);
    }
  }

  /** Appending a member to a group adds at most the error for that member. */
  lemma GroupErrorsStep(g: seq<Method>, j: int)
    requires 0 <= j < |g|
    ensures GroupErrors(g[..j + 1]) == GroupErrors(g[..j])
      + (if j > 0 && g[j - 1].annotated && g[j].annotated then [Conflict(g[j])] else [])
  {
    assert g[..j + 1][..j] == g[..j];
  }

  lemma GroupErrorsSnoc(g: seq<Method>, x: Method)
    ensures GroupErrors(g + [x]) == GroupErrors(g)
      + (if g != [] && g[|g| - 1].annotated && x.annotated then [Conflict(x)] else [])
  {
    assert (g + [x])[..|g|] == g;
  }

  /** The group of `name` in `ms` extends the group in `ms` without its last method. */
  lemma GroupOfSnoc(ms: seq<Method>, name: string)
    requires ms != []
    ensures var p, x := ms[..|ms| - 1], ms[|ms| - 1];
      GroupErrors(FilterByName(ms, name)) == GroupErrors(FilterByName(p, name))
        + (if x.name == name && ConflictAt(ms, |ms| - 1) then [Conflict(x)] else [])
  {
    var p, x := ms[..|ms| - 1], ms[|ms| - 1];
    var g := FilterByName(p, name);
    if x.name == name {
      assert FilterByName(ms, name) == g + [x];
      GroupErrorsSnoc(g, x);
      var k := LastIndexBefore(ms, name, |p|);
      LastIndexBeforePrefix(ms, name, |p|, |p|);
      assert ms[..|p|] == p;
      FilterByNameLastIndex(p, name);
      assert k == LastIndexBefore(p, name, |p|);
      assert g != [] ==> g[|g| - 1] == ms[k];
      assert ConflictAt(ms, |p|) == (x.annotated && k >= 0 && ms[k].annotated);
    } else {
      assert FilterByName(ms, name) == g;
    }
  }

  /** Every error of a name's group is a conflict of a method of that name. */
  lemma {:induction false} GroupErrorsSound(ms: seq<Method>, name: string, e: ValidationError)
    requires e in GroupErrors(FilterByName(ms, name))
    ensures exists i :: 0 <= i < |ms| && ms[i].name == name && ConflictAt(ms, i) && e == Conflict(ms[i])
  {
    var p, x := ms[..|ms| - 1], ms[|ms| - 1];
    var earlier := GroupErrors(FilterByName(p, name));
    var last := if x.name == name && ConflictAt(ms, |p|) then [Conflict(x)] else [];
    GroupOfSnoc(ms, name);
    assert GroupErrors(FilterByName(ms, name)) == earlier + last;
    if e in earlier {
      GroupErrorsSound(p, name, e);
      var i :| 0 <= i < |p| && p[i].name == name && ConflictAt(p, i) && e == Conflict(p[i]);
      ConflictAtPrefix(ms, i, |p|);
      assert ms[i] == p[i];
      assert 0 <= i < |ms| && ms[i].name == name && ConflictAt(ms, i) && e == Conflict(ms[i]);
    } else {
      assert e in last;
      var i := |p|;
      assert ms[i] == x;
      assert 0 <= i < |ms| && ms[i].name == name && ConflictAt(ms, i) && e == Conflict(ms[i]);
    }
  }

  /** Every conflict of a method of that name is an error of the name's group. */
  lemma {:induction false} GroupErrorsComplete(ms: seq<Method>, name: string, i: int)
    requires 0 <= i < |ms| && ms[i].name == name && ConflictAt(ms, i)
    ensures Conflict(ms[i]) in GroupErrors(FilterByName(ms, name))
  {
    var p, x := ms[..|ms| - 1], ms[|ms| - 1];
    var earlier := GroupErrors(FilterByName(p, name));
    var last := if x.name == name && ConflictAt(ms, |p|) then [Conflict(x)] else [];
    GroupOfSnoc(ms, name);
    assert GroupErrors(FilterByName(ms, name)) == earlier + last;
    if i < |p| {
      ConflictAtPrefix(ms, i, |p|);
      assert p[i] == ms[i];
      GroupErrorsComplete(p, name, i);
      assert Conflict(ms[i]) in earlier;
    } else {
      assert last == [Conflict(ms[i])];
    }
  }

  /** Whether a method conflicts depends only on the methods up to it. */
  lemma ConflictAtPrefix(ms: seq<Method>, i: int, n: int)
    requires 0 <= i < n <= |ms|
    ensures ConflictAt(ms, i) == ConflictAt(ms[..n], i)
  {
    LastIndexBeforePrefix(ms, ms[i].name, i, n);
    assert ms[..n][i] == ms[i];
  }

  /** The errors of the group named `name` are exactly the conflicts, stated on
      the input sequence: a method of that name is reported iff it and the
      previous method of the same name are both annotated. */
  lemma GroupErrorsOnInput(ms: seq<Method>, name: string, e: ValidationError)
    ensures e in GroupErrors(FilterByName(ms, name)) <==>
      exists i :: 0 <= i < |ms| && ms[i].name == name && ConflictAt(ms, i) && e == Conflict(ms[i])
  {
    if e in GroupErrors(FilterByName(ms, name)) {
      GroupErrorsSound(ms, name, e);
    }
    if exists i :: 0 <= i < |ms| && ms[i].name == name && ConflictAt(ms, i) && e == Conflict(ms[i]) {
      var i :| 0 <= i < |ms| && ms[i].name == name && ConflictAt(ms, i) && e == Conflict(ms[i]);
      GroupErrorsComplete(ms, name, i);
    }
  }

  /** The names scanned by `Validation` cover the input's names, each once. */
  lemma {:induction false} ErrorsForNamesMembership(ms: seq<Method>, names: seq<string>, e: ValidationError)
    ensures e in ErrorsForNames(ms, names) <==> exists n :: n in names && e in GroupErrors(FilterByName(ms, n))
  {
    if names != [] {
      var p, last := names[..|names| - 1], names[|names| - 1];
      ErrorsForNamesMembership(ms, p, e);
      assert names == p + [last];
      var tail := GroupErrors(FilterByName(ms, last));
      assert ErrorsForNames(ms, names) == ErrorsForNames(ms, p) + tail;
      if e in ErrorsForNames(ms, names) && e !in tail {
        var n :| n in p && e in GroupErrors(FilterByName(ms, n));
        assert n in names;
      }
      if exists n :: n in names && e in GroupErrors(FilterByName(ms, n)) {
        var n :| n in names && e in GroupErrors(FilterByName(ms, n));
        assert n == last || n in p;
      }
    }
  }

  /** `DistinctNames` lists every name of the input, and each only once. */
  lemma {:induction false} DistinctNamesSpec(ms: seq<Method>)
    ensures forall n :: n in DistinctNames(ms) <==> n in NamesOf(ms)
    ensures forall i, j :: 0 <= i < j < |DistinctNames(ms)| ==> DistinctNames(ms)[i] != DistinctNames(ms)[j]
  {
    if ms != [] {
      var p, x := ms[..|ms| - 1], ms[|ms| - 1];
      DistinctNamesSpec(p);
      assert ms == p + [x];
      assert NamesOf(ms) == NamesOf(p) + {x.name};
    }
  }

  /** The validator's errors, stated on the input alone: an error is reported
      for the method at `i` exactly when it is annotated and the previous method
      of the same simple name is annotated too. */
  lemma ValidationCharacterization(ms: seq<Method>, e: ValidationError)
    ensures e in Validation(ms) <==>
      exists i :: 0 <= i < |ms| && ConflictAt(ms, i) && e == Conflict(ms[i])
  {
    ErrorsForNamesMembership(ms, DistinctNames(ms), e);
    DistinctNamesSpec(ms);
    if e in Validation(ms) {
      var n :| n in DistinctNames(ms) && e in GroupErrors(FilterByName(ms, n));
      GroupErrorsOnInput(ms, n, e);
    }
    if exists i :: 0 <= i < |ms| && ConflictAt(ms, i) && e == Conflict(ms[i]) {
      var i :| 0 <= i < |ms| && ConflictAt(ms, i) && e == Conflict(ms[i]);
      var n := ms[i].name;
      assert ms[i] in ms;
      GroupErrorsOnInput(ms, n, e);
    }
  }

  /** Every reported error names @Message and an annotated input method that
      has an earlier, annotated method of the same name with no method of that
      name in between; so the first method of a name is never reported. */
  lemma ValidationErrorsAttributed(ms: seq<Method>, e: ValidationError)
    requires e in Validation(ms)
    ensures e.annotation == MessageAnnotation && e.element in ms && e.element.annotated
    ensures exists i, j ::
              && 0 <= j < i < |ms| && e.element == ms[i]
              && ms[j].name == ms[i].name && ms[j].annotated
              && (forall k :: j < k < i ==> ms[k].name != ms[i].name)
  {
    ValidationCharacterization(ms, e);
    var i :| 0 <= i < |ms| && ConflictAt(ms, i) && e == Conflict(ms[i]);
    var j := LastIndexBefore(ms, ms[i].name, i);
    LastIndexBeforeSpec(ms, ms[i].name, i);
    assert 0 <= j < i && ms[j].name == ms[i].name && ms[j].annotated;
  }

  /** Three annotated overloads in a row: the second and third are reported. */
  lemma ThreeAnnotatedOverloads(a: Method, b: Method, c: Method)
    requires a.name == b.name == c.name
    requires a.annotated && b.annotated && c.annotated
    ensures Validation([a, b, c]) == [Conflict(b), Conflict(c)]
  {
    var ms := [a, b, c];
    assert [a][..0] == [] && [a, b][..1] == [a] && ms[..2] == [a, b];
    assert DistinctNames([a]) == [a.name];
    assert DistinctNames([a, b]) == [a.name];
    assert DistinctNames(ms) == [a.name];
    assert FilterByName([a], a.name) == [a];
    assert FilterByName([a, b], a.name) == [a, b];
    assert FilterByName(ms, a.name) == ms;
    assert [a.name][..0] == [];
    assert ErrorsForNames(ms, [a.name]) == [] + GroupErrors(FilterByName(ms, a.name));
    assert Validation(ms) == GroupErrors(ms);
    assert GroupErrors([a, b]) == GroupErrors([a]) + [Conflict(b)];
  }

  /** An unannotated overload between two annotated ones resets the scan: no
      error is reported, although two members are annotated. */
  lemma InterleavedOverloads(a: Method, b: Method, c: Method)
    requires a.name == b.name == c.name
    requires a.annotated && !b.annotated && c.annotated
    ensures Validation([a, b, c]) == []
  {
    var ms := [a, b, c];
    assert [a][..0] == [] && [a, b][..1] == [a] && ms[..2] == [a, b];
    assert DistinctNames([a]) == [a.name];
    assert DistinctNames([a, b]) == [a.name];
    assert DistinctNames(ms) == [a.name];
    assert FilterByName([a], a.name) == [a];
    assert FilterByName([a, b], a.name) == [a, b];
    assert FilterByName(ms, a.name) == ms;
    assert [a.name][..0] == [];
    assert ErrorsForNames(ms, [a.name]) == [] + GroupErrors(FilterByName(ms, a.name));
    assert Validation(ms) == GroupErrors(ms);
    assert GroupErrors([a, b]) == GroupErrors([a]) + [];
  }

  /** Methods whose names do not overlap are validated independently: the
      errors of a concatenation are the errors of each part, so no error of
      one name group ever involves another. */
  lemma ValidationIndependentNames(a: seq<Method>, b: seq<Method>)
    requires NamesOf(a) !! NamesOf(b)
    ensures Validation(a + b) == Validation(a) + Validation(b)
  {
    DistinctNamesAppend(a, b);
    ErrorsForNamesAppend(a + b, DistinctNames(a), DistinctNames(b));
    DistinctNamesSpec(a);
    DistinctNamesSpec(b);
    ErrorsForNamesRestrict(a, b, DistinctNames(a), true);
    ErrorsForNamesRestrict(b, a, DistinctNames(b), false);
  }

  lemma {:induction false} DistinctNamesAppend(a: seq<Method>, b: seq<Method>)
    requires NamesOf(a) !! NamesOf(b)
    ensures DistinctNames(a + b) == DistinctNames(a) + DistinctNames(b)
  {
    if b == [] {
      assert a + b == a;
    } else {
      var b', x := b[..|b| - 1], b[|b| - 1];
      assert (a + b)[..|a + b| - 1] == a + b';
      assert b == b' + [x];
      assert NamesOf(b) == NamesOf(b') + {x.name};
      DistinctNamesAppend(a, b');
      DistinctNamesSpec(a);
      assert x.name !in DistinctNames(a);
    }
  }

  lemma {:induction false} ErrorsForNamesAppend(ms: seq<Method>, xs: seq<string>, ys: seq<string>)
    ensures ErrorsForNames(ms, xs + ys) == ErrorsForNames(ms, xs) + ErrorsForNames(ms, ys)
  {
    if ys == [] {
      assert xs + ys == xs;
    } else {
      var ys', y := ys[..|ys| - 1], ys[|ys| - 1];
      assert ys == ys' + [y];
      ErrorsForNamesAppend(ms, xs, ys');
      ErrorsForNamesAppendStep(ms, xs, ys', y);
    }
  }

  /** One more name on the right extends both sides by that name's errors. */
  lemma ErrorsForNamesAppendStep(ms: seq<Method>, xs: seq<string>, ys: seq<string>, y: string)
    requires ErrorsForNames(ms, xs + ys) == ErrorsForNames(ms, xs) + ErrorsForNames(ms, ys)
    ensures ErrorsForNames(ms, xs + (ys + [y])) == ErrorsForNames(ms, xs) + ErrorsForNames(ms, ys + [y])
  {
    var a, b, g := ErrorsForNames(ms, xs), ErrorsForNames(ms, ys), GroupErrors(FilterByName(ms, y));
    assert xs + (ys + [y]) == (xs + ys) + [y];
    ErrorsForNamesSnoc(ms, xs + ys, y);
    ErrorsForNamesSnoc(ms, ys, y);
    ConcatAssociative(a, b, g);
  }

  lemma ConcatAssociative<T>(a: seq<T>, b: seq<T>, c: seq<T>)
    ensures (a + b) + c == a + (b + c)
  {
  }

  /** A name no method carries has an empty group. */
  lemma {:induction false} FilterByNameAbsent(ms: seq<Method>, name: string)
    requires forall m :: m in ms ==> m.name != name
    ensures FilterByName(ms, name) == []
  {
    if ms != [] {
      var p := ms[..|ms| - 1];
      assert forall m :: m in p ==> m in ms;
      FilterByNameAbsent(p, name);
    }
  }

  /** Groups of `own`'s names are unaffected by methods of other names, on
      whichever side they are appended. */
  lemma {:induction false} ErrorsForNamesRestrict(own: seq<Method>, other: seq<Method>, names: seq<string>, ownFirst: bool)
    requires NamesOf(own) !! NamesOf(other)
    requires forall n :: n in names ==> n in NamesOf(own)
    ensures ErrorsForNames(if ownFirst then own + other else other + own, names) == ErrorsForNames(own, names)
  {
    if names != [] {
      var n := names[|names| - 1];
      ErrorsForNamesRestrict(own, other, names[..|names| - 1], ownFirst);
      assert forall m :: m in other ==> m.name in NamesOf(other);
      FilterByNameAbsent(other, n);
      if ownFirst {
        FilterByNameAppend(own, other, n);
        assert FilterByName(own, n) + [] == FilterByName(own, n);
      } else {
        FilterByNameAppend(other, own, n);
        assert [] + FilterByName(own, n) == FilterByName(own, n);
      }
    }
  }
}
