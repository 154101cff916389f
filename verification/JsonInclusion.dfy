/** Whether a stored configuration already includes a desired one. */
module JsonInclusion {
  import opened Basics

  datatype Json =
    | Null
    | Bool(b: bool)
    | Num(n: real)
    | Str(s: string)
    | Arr(items: seq<Json>)
    | Obj(fields: map<string, Json>)

  type Fields = map<string, Json>

  /** Every item of `desired` equals some item of `current`. */
  predicate SliceIncludes(current: seq<Json>, desired: seq<Json>) {
    forall x :: x in desired ==> x in current
  }

  /** Every desired key is present with an equal value, or with an object or array that includes it. */
  predicate Includes(current: Fields, desired: Fields)
    decreases Obj(desired), 0
  {
    forall key :: key in desired ==> key in current && ValueIncludes(current[key], desired[key])
  }

  predicate ValueIncludes(current: Json, desired: Json)
    decreases desired, 1
  {
    desired == current ||
    match desired
    case Obj(fields) => current.Obj? && Includes(current.fields, fields)
    case Arr(items) => current.Arr? && SliceIncludes(current.items, items)
    case _ => false
  }

  // The two loops

  method SliceIncludesLoop(current: seq<Json>, desired: seq<Json>) returns (r: bool)
    ensures r == SliceIncludes(current, desired)
  {
    for i := 0 to |desired|
      invariant forall j :: 0 <= j < i ==> desired[j] in current
    {
      var found := false;
      for j := 0 to |current|
        invariant !found && desired[i] !in current[..j]
      {
        if desired[i] == current[j] {
          found := true;
          break;
        }
      }
      if !found {
        assert current[..|current|] == current;
        return false;
      }
    }
    return true;
  }

  /** The recursive check visits the desired keys in any order and returns at the first miss. */
  method IncludesLoop(current: Fields, desired: Fields) returns (r: bool)
    ensures r == Includes(current, desired)
    decreases Obj(desired)
  {
    var todo := desired.Keys;
    while todo != {}
      invariant todo <= desired.Keys
      invariant forall key :: key in desired && key !in todo ==>
                key in current && ValueIncludes(current[key], desired[key])
      decreases |todo|
    {
      var key :| key in todo;
      todo := todo - {key};
      if key !in current { return false; }
      var d, c := desired[key], current[key];
      if d != c {
        match d {
          case Obj(fields) =>
            if !c.Obj? { return false; }
            var ok := IncludesLoop(c.fields, fields);
            if !ok { return false; }
          case Arr(items) =>
            if !c.Arr? { return false; }
            var ok := SliceIncludesLoop(c.items, items);
            if !ok { return false; }
          case _ =>
            return false;
        }
      }
    }
    return true;
  }

  // Path by path

  /** The value reached by following object keys. */
  function At(j: Json, path: seq<string>): Option<Json>
    decreases |path|
  {
    if path == [] then Some(j)
    else if j.Obj? && path[0] in j.fields then At(j.fields[path[0]], path[1..])
    else None
  }

  /** What one desired value asks of the value at the same place, not looking below it. */
  predicate Meets(current: Json, desired: Json) {
    match desired
    case Obj(_) => current.Obj?
    case Arr(items) => current.Arr? && forall x :: x in items ==> x in current.items
    case _ => current == desired
  }

  ghost predicate MeetsAt(current: Json, desired: Json, path: seq<string>) {
    At(desired, path).Some? ==> At(current, path).Some? && Meets(At(current, path).value, At(desired, path).value)
  }

  /** Every path of the desired document leads in the current one to a value that meets it. */
  ghost predicate Covers(current: Json, desired: Json) {
    forall path :: MeetsAt(current, desired, path)
  }

  lemma CoversItself(j: Json)
    ensures Covers(j, j)
  {
  }

  lemma CoversField(current: Fields, desired: Fields, key: string)
    requires Covers(Obj(current), Obj(desired)) && key in desired
    ensures key in current && Covers(current[key], desired[key])
  {
    assert MeetsAt(Obj(current), Obj(desired), [key]);
    assert At(Obj(desired), [key]) == At(desired[key], []);
    assert key in current;
    forall path ensures MeetsAt(current[key], desired[key], path) {
      assert MeetsAt(Obj(current), Obj(desired), [key] + path);
      assert ([key] + path)[1..] == path;
    }
  }

  lemma FieldsCover(current: Fields, desired: Fields)
    requires forall key :: key in desired ==> key in current && Covers(current[key], desired[key])
    ensures Covers(Obj(current), Obj(desired))
  {
    forall path ensures MeetsAt(Obj(current), Obj(desired), path) {
      if path != [] && path[0] in desired {
        assert MeetsAt(current[path[0]], desired[path[0]], path[1..]);
      }
    }
  }

  lemma LeafCovers(current: Json, desired: Json)
    requires !desired.Obj?
    ensures Covers(current, desired) <==> Meets(current, desired)
  {
    assert At(desired, []) == Some(desired) && At(current, []) == Some(current);
    assert forall path :: path != [] ==> At(desired, path) == None;
    if Covers(current, desired) { assert MeetsAt(current, desired, []); }
    if Meets(current, desired) {
      forall path ensures MeetsAt(current, desired, path) {}
    }
  }

  /** The recursive check decides exactly the path-by-path definition. */
  lemma {:induction false} ValueIncludesIsCovers(current: Json, desired: Json)
    ensures ValueIncludes(current, desired) <==> Covers(current, desired)
    decreases desired
  {
    if desired == current {
      CoversItself(desired);
    } else if desired.Obj? {
      if !current.Obj? {
        assert !MeetsAt(current, desired, []);
      } else {
        assert desired == Obj(desired.fields) && current == Obj(current.fields);
        IncludesIsCovers(current.fields, desired.fields);
      }
    } else {
      LeafCovers(current, desired);
    }
  }

  lemma {:induction false} IncludesIsCovers(current: Fields, desired: Fields)
    ensures Includes(current, desired) <==> Covers(Obj(current), Obj(desired))
    decreases Obj(desired), 0
  {
    forall key | key in desired && key in current
      ensures ValueIncludes(current[key], desired[key]) <==> Covers(current[key], desired[key])
    {
      ValueIncludesIsCovers(current[key], desired[key]);
    }
    if Includes(current, desired) {
      FieldsCover(current, desired);
    }
    if Covers(Obj(current), Obj(desired)) {
      forall key | key in desired ensures key in current && Covers(current[key], desired[key]) {
        CoversField(current, desired, key);
      }
    }
  }

  /** Inclusion is a preorder. */
  lemma IncludesReflexive(a: Fields)
    ensures Includes(a, a)
  {
  }

  lemma IncludesTransitive(a: Fields, b: Fields, c: Fields)
    requires Includes(a, b) && Includes(b, c)
    ensures Includes(a, c)
  {
    IncludesIsCovers(a, b);
    IncludesIsCovers(b, c);
    IncludesIsCovers(a, c);
    forall path ensures MeetsAt(Obj(a), Obj(c), path) {
      assert MeetsAt(Obj(a), Obj(b), path) && MeetsAt(Obj(b), Obj(c), path);
    }
  }

  // The shortcut

  /** The check without the comparison of whole values first. */
  predicate PlainIncludes(current: Fields, desired: Fields)
    decreases Obj(desired), 0
  {
    forall key :: key in desired ==> key in current && PlainValueIncludes(current[key], desired[key])
  }

  predicate PlainValueIncludes(current: Json, desired: Json)
    decreases desired, 1
  {
    match desired
    case Obj(fields) => current.Obj? && PlainIncludes(current.fields, fields)
    case Arr(items) => current.Arr? && SliceIncludes(current.items, items)
    case _ => current == desired
  }

  lemma {:induction false} PlainReflexive(j: Json)
    ensures PlainValueIncludes(j, j)
    decreases j
  {
    if j.Obj? {
      forall key | key in j.fields ensures PlainValueIncludes(j.fields[key], j.fields[key]) {
        PlainReflexive(j.fields[key]);
      }
    }
  }

  lemma {:induction false} ShortcutNeverMattersForValues(current: Json, desired: Json)
    ensures ValueIncludes(current, desired) <==> PlainValueIncludes(current, desired)
    decreases desired
  {
    if desired == current {
      PlainReflexive(desired);
    } else if desired.Obj? && current.Obj? {
      assert desired == Obj(desired.fields);
      ShortcutNeverMatters(current.fields, desired.fields);
    }
  }

  /** Comparing whole values first is a speed-up that never changes the answer. */
  lemma {:induction false} ShortcutNeverMatters(current: Fields, desired: Fields)
    ensures Includes(current, desired) <==> PlainIncludes(current, desired)
    decreases Obj(desired), 0
  {
    forall key | key in desired && key in current
      ensures ValueIncludes(current[key], desired[key]) <==> PlainValueIncludes(current[key], desired[key])
    {
      ShortcutNeverMattersForValues(current[key], desired[key]);
    }
  }
}
