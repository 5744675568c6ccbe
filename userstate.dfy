/** The student-state projection of problem_builder/mixins.py:
    `StudentViewUserStateMixin.build_user_state_data` (lines 206-229) and the
    `student_results` transform of `StudentViewUserStateResultsTransformerMixin`
    (`transform_student_results` and `delete_key`, lines 249-273). */
module UserState {
  import opened Keys
  import opened Content

  const TipsKey := "tips"
  const ChoicesKey := "choices"

  /** `INCLUDE_SCOPES`. */
  predicate Included(s: Scope)
  {
    s == UserState || s == UserInfo || s == Preferences
  }

  /** A block's projection: its selected fields, and, for a block class that
      has children, the projections of its children by child id (the entry
      `NESTED_BLOCKS_KEY`, "components"). */
  datatype Projection = Projection(fields: map<string, Json>, components: Option<map<Key, Projection>>)

  /** `delete_key`: remove `key` if it is there, and tolerate its absence. */
  function DeleteKey(d: map<string, Json>, key: string): (r: map<string, Json>)
    ensures key !in r
    ensures r.Keys == d.Keys - {key}
    ensures forall k :: k in r ==> r[k] == d[k]
  {
    d - {key}
  }

  /** A value Python iterates without raising but finds nothing in: an
      empty dictionary or an empty string. */
  predicate NothingToIterate(v: Json)
  {
    v == Obj(map[]) || v == Str("")
  }

  /** `delete_key(choice, 'tips')` on one choice; `del` raises TypeError on a
      choice that is not a dictionary, and `delete_key` only catches
      KeyError. */
  function StripChoice(c: Json): (r: Result<Json>)
    ensures r.Ok? <==> c.Obj?
    ensures r.Ok? ==> r.value.Obj? && TipsKey !in r.value.members && r.value.members.Keys == c.members.Keys - {TipsKey}
    ensures r.Ok? ==> forall k :: k in r.value.members ==> r.value.members[k] == c.members[k]
    ensures r.Err? ==> r.error == MalformedResults
  {
    if c.Obj? then Ok(Obj(DeleteKey(c.members, TipsKey))) else Err(MalformedResults)
  }

  /** The loop over `get('choices', [])`: every element of a list must be a
      dictionary; any other value must have nothing to iterate. */
  function StripChoices(v: Json): (r: Result<Json>)
    ensures r.Ok? <==> (v.Arr? && forall i :: 0 <= i < |v.items| ==> v.items[i].Obj?) || NothingToIterate(v)
    ensures r.Ok? && v.Arr? ==>
      r.value.Arr? && |r.value.items| == |v.items| &&
      forall i :: 0 <= i < |v.items| ==> StripChoice(v.items[i]) == Ok(r.value.items[i])
    ensures r.Ok? && !v.Arr? ==> r.value == v
    ensures r.Err? ==> r.error == MalformedResults
  {
    if v.Arr? then
      if forall i :: 0 <= i < |v.items| ==> v.items[i].Obj? then
        Ok(Arr(seq(|v.items|, i requires 0 <= i < |v.items| => StripChoice(v.items[i]).value)))
      else Err(MalformedResults)
    else if NothingToIterate(v) then Ok(v)
    else Err(MalformedResults)
  }

  /** One result dictionary with its choices' tips, then its own tips,
      removed. */
  function StripResult(m: map<string, Json>): (r: Result<map<string, Json>>)
    ensures r.Ok? <==> ChoicesKey in m ==> StripChoices(m[ChoicesKey]).Ok?
    ensures r.Ok? ==> TipsKey !in r.value && r.value.Keys == m.Keys - {TipsKey}
    ensures r.Ok? ==> forall k :: k in r.value && k != ChoicesKey ==> r.value[k] == m[k]
    ensures r.Ok? && ChoicesKey in m ==> StripChoices(m[ChoicesKey]) == Ok(r.value[ChoicesKey])
    ensures r.Err? ==> r.error == MalformedResults
  {
    if ChoicesKey in m then
      match StripChoices(m[ChoicesKey])
      case Err(e) => Err(e)
      case Ok(c) => Ok(DeleteKey(m[ChoicesKey := c], TipsKey))
    else Ok(DeleteKey(m, TipsKey))
  }

  /** No tips key is left in an entry's results or in any of its choices. */
  predicate TipsFree(e: Json)
  {
    && e.Arr? && |e.items| == 2 && e.items[1].Obj?
    && var m := e.items[1].members;
      && TipsKey !in m
      && (ChoicesKey in m && m[ChoicesKey].Arr? ==>
           forall i :: 0 <= i < |m[ChoicesKey].items| ==>
             m[ChoicesKey].items[i].Obj? && TipsKey !in m[ChoicesKey].items[i].members)
  }

  /** One `(_name, current_student_results)` entry after the loop body: the
      entry must unpack into a name and a dictionary, whose choices and tips
      are then removed. The stripped entry is tips-free, keeps its name and
      every other key of its results with its value, its choices being the
      stripped choices. */
  function StripEntry(e: Json): (r: Result<Json>)
    ensures r.Ok? <==> e.Arr? && |e.items| == 2 && e.items[1].Obj? && StripResult(e.items[1].members).Ok?
    ensures r.Ok? ==> TipsFree(r.value) && r.value.items[0] == e.items[0]
    ensures r.Ok? ==> r.value.items[1].members.Keys == e.items[1].members.Keys - {TipsKey}
    ensures r.Ok? ==> forall k :: k in r.value.items[1].members && k != ChoicesKey ==>
      r.value.items[1].members[k] == e.items[1].members[k]
    ensures r.Ok? && ChoicesKey in e.items[1].members ==>
      StripChoices(e.items[1].members[ChoicesKey]) == Ok(r.value.items[1].members[ChoicesKey])
    ensures r.Err? ==> r.error == MalformedResults
  {
    if e.Arr? && |e.items| == 2 && e.items[1].Obj? then
      match StripResult(e.items[1].members)
      case Err(x) => Err(x)
      case Ok(m) => Ok(Arr([e.items[0], Obj(m)]))
    else Err(MalformedResults)
  }

  /** `transform_student_results`: every entry of a list is stripped, in
      order; any other value must have nothing to iterate. */
  function StripAll(v: Json): (r: Result<Json>)
    ensures r.Ok? <==> (v.Arr? && forall i :: 0 <= i < |v.items| ==> StripEntry(v.items[i]).Ok?) || NothingToIterate(v)
    ensures r.Ok? && v.Arr? ==>
      r.value.Arr? && |r.value.items| == |v.items| &&
      forall i :: 0 <= i < |v.items| ==> StripEntry(v.items[i]) == Ok(r.value.items[i]) && TipsFree(r.value.items[i])
    ensures r.Ok? && !v.Arr? ==> r.value == v
    ensures r.Err? ==> r.error == MalformedResults
  {
    if v.Arr? then
      if forall i :: 0 <= i < |v.items| ==> StripEntry(v.items[i]).Ok? then
        Ok(Arr(seq(|v.items|, i requires 0 <= i < |v.items| => StripEntry(v.items[i]).value)))
      else Err(MalformedResults)
    else if NothingToIterate(v) then Ok(v)
    else Err(MalformedResults)
  }

  /** The body of the entry loop for one results dictionary: the loop over
      its choices, removing each choice's tips, then its own tips. */
  method StripResultLoop(m: map<string, Json>) returns (r: Result<map<string, Json>>)
    ensures r == StripResult(m)
  {
    if ChoicesKey !in m {
      return Ok(DeleteKey(m, TipsKey));
    }
    var choices := m[ChoicesKey];
    if !choices.Arr? {
      if NothingToIterate(choices) {
        assert m[ChoicesKey := choices] == m;
        return Ok(DeleteKey(m, TipsKey));
      }
      return Err(MalformedResults);
    }
    var out: seq<Json> := [];
    var i := 0;
    while i < |choices.items|
      invariant 0 <= i <= |choices.items| && |out| == i
      invariant forall j :: 0 <= j < i ==> StripChoice(choices.items[j]) == Ok(out[j])
    {
      var choice := StripChoice(choices.items[i]);
      if choice.Err? {
        return Err(choice.error);
      }
      out := out + [choice.value];
      i := i + 1;
    }
    assert out == seq(|choices.items|, j requires 0 <= j < |choices.items| => StripChoice(choices.items[j]).value);
    return Ok(DeleteKey(m[ChoicesKey := Arr(out)], TipsKey));
  }

  /** The transform removes tips and nothing else: in every entry, a value
      at a key other than `tips` and `choices` is still there, unchanged. */
  lemma StripAllKeepsOthers(v: Json, i: nat, k: string)
    requires StripAll(v).Ok? && v.Arr? && i < |v.items|
    requires StripEntry(v.items[i]).Ok? && k in v.items[i].items[1].members && k != TipsKey && k != ChoicesKey
    ensures k in StripAll(v).value.items[i].items[1].members
    ensures StripAll(v).value.items[i].items[1].members[k] == v.items[i].items[1].members[k]
  {
  }

  /** `transform_student_results`: the loop over the entries; the first
      malformed entry raises. */
  method TransformStudentResults(v: Json) returns (r: Result<Json>)
    ensures r == StripAll(v)
  {
    if !v.Arr? {
      return if NothingToIterate(v) then Ok(v) else Err(MalformedResults);
    }
    var out: seq<Json> := [];
    var i := 0;
    while i < |v.items|
      invariant 0 <= i <= |v.items| && |out| == i
      invariant forall j :: 0 <= j < i ==> StripEntry(v.items[j]) == Ok(out[j])
    {
      var entry := v.items[i];
      if !(entry.Arr? && |entry.items| == 2 && entry.items[1].Obj?) {
        return Err(MalformedResults);
      }
      var results := StripResultLoop(entry.items[1].members);
      if results.Err? {
        return Err(results.error);
      }
      out := out + [Arr([entry.items[0], Obj(results.value)])];
      i := i + 1;
    }
    assert out == seq(|v.items|, j requires 0 <= j < |v.items| => StripEntry(v.items[j]).value);
    return Ok(Arr(out));
  }

  /** The value a field contributes: through its registered transform, or as
      it is (the identity default of `transforms.get`). */
  function Transformed(cls: BlockClass, name: string, v: Json): (r: Result<Json>)
    ensures name !in cls.transforms ==> r == Ok(v)
    ensures name in cls.transforms && r.Ok? && v.Arr? ==>
      r.value.Arr? && |r.value.items| == |v.items| && forall i :: 0 <= i < |v.items| ==> TipsFree(r.value.items[i])
    ensures r.Err? ==> r.error == MalformedResults
  {
    if name in cls.transforms then
      match cls.transforms[name]
      case StripTips => StripAll(v)
    else Ok(v)
  }

  /** A field of the block's state: scope in `INCLUDE_SCOPES` and name in
      `USER_STATE_FIELDS`. */
  predicate StateField(cls: BlockClass, b: Block, n: string)
  {
    n in b.fields && Included(b.fields[n].scope) && n in cls.userStateFields
  }

  /** The selected fields of a block, each through its transform; a
      transform that raises fails the projection. */
  function SelectedFields(cls: BlockClass, b: Block): (r: Result<map<string, Json>>)
    ensures r.Ok? <==> forall n :: StateField(cls, b, n) ==> Transformed(cls, n, b.fields[n].value).Ok?
    ensures r.Ok? ==> forall n :: n in r.value <==> StateField(cls, b, n)
    ensures r.Ok? ==> forall n :: n in r.value ==> Transformed(cls, n, b.fields[n].value) == Ok(r.value[n])
    ensures r.Ok? ==> forall n :: n in r.value && n !in cls.transforms ==> r.value[n] == b.fields[n].value
    ensures r.Err? ==> r.error == MalformedResults
  {
    if forall n :: n in b.fields && StateField(cls, b, n) ==> Transformed(cls, n, b.fields[n].value).Ok? then
      Ok(map n | n in b.fields && StateField(cls, b, n) :: Transformed(cls, n, b.fields[n].value).value)
    else Err(MalformedResults)
  }

  /** What `build_user_state_data` returns for a resolved block: the fields
      first, then, for a class with children, the children's projections. */
  function Project(reg: Registry, t: Tree): Result<Projection>
    requires t.Node?
    decreases t, |t.kids| + 1
  {
    var cls := reg(t.block.id.blockType);
    match SelectedFields(cls, t.block)
    case Err(e) => Err(e)
    case Ok(fields) =>
      if !cls.hasChildren then Ok(Projection(fields, None))
      else
        match Components(reg, t, |t.kids|)
        case Err(e) => Err(e)
        case Ok(c) => Ok(Projection(fields, Some(c)))
  }

  /** The `components` dictionary after the first `n` children: each child is
      resolved (a missing one raises) and, if its class has the method,
      projected under its id. */
  function Components(reg: Registry, t: Tree, n: nat): Result<map<Key, Projection>>
    requires t.Node? && n <= |t.kids|
    decreases t, n
  {
    if n == 0 then Ok(map[])
    else
      match Components(reg, t, n - 1)
      case Err(e) => Err(e)
      case Ok(m) =>
        var kid := t.kids[n - 1];
        if kid.Missing? then Err(ItemNotFound(kid.id))
        else if StudentViewUserStateMixin !in reg(kid.block.id.blockType).lineage then Ok(m)
        else
          match Project(reg, kid)
          case Err(e) => Err(e)
          case Ok(p) => Ok(m[kid.id := p])
  }

  /** The field loop of `build_user_state_data`: every field of the block in
      `INCLUDE_SCOPES` and `USER_STATE_FIELDS`, through
      `transform_student_results` where that is registered. */
  method StateFields(cls: BlockClass, b: Block) returns (r: Result<map<string, Json>>)
    ensures r == SelectedFields(cls, b)
  {
    var fields: map<string, Json> := map[];
    var todo := b.fields.Keys;
    while todo != {}
      invariant todo <= b.fields.Keys
      invariant forall n :: n in fields <==> StateField(cls, b, n) && n !in todo
      invariant forall n :: n in fields ==> Transformed(cls, n, b.fields[n].value) == Ok(fields[n])
      decreases todo
    {
      var name :| name in todo;
      var field := b.fields[name];
      if Included(field.scope) && name in cls.userStateFields {
        var value := Ok(field.value);
        if name in cls.transforms {
          value := TransformStudentResults(field.value);
        }
        if value.Err? {
          return Err(value.error);
        }
        fields := fields[name := value.value];
      }
      todo := todo - {name};
    }
    assert forall n :: n in b.fields && StateField(cls, b, n) ==> n in fields;
    assert SelectedFields(cls, b).value == fields;
    return Ok(fields);
  }

  /** `build_user_state_data`. */
  method BuildUserStateData(reg: Registry, t: Tree) returns (r: Result<Projection>)
    requires t.Node?
    ensures r == Project(reg, t)
    decreases t
  {
    var cls := reg(t.block.id.blockType);
    var selected := StateFields(cls, t.block);
    if selected.Err? {
      return Err(selected.error);
    }
    var fields := selected.value;
    if !cls.hasChildren {
      return Ok(Projection(fields, None));
    }
    var components: map<Key, Projection> := map[];
    var i := 0;
    while i < |t.kids|
      invariant 0 <= i <= |t.kids|
      invariant Components(reg, t, i) == Ok(components)
    {
      var kid := t.kids[i];
      if kid.Missing? {
        ComponentsErrorSticks(reg, t, i + 1, |t.kids|);
        return Err(ItemNotFound(kid.id));
      }
      if StudentViewUserStateMixin in reg(kid.block.id.blockType).lineage {
        var p := BuildUserStateData(reg, kid);
        if p.Err? {
          ComponentsErrorSticks(reg, t, i + 1, |t.kids|);
          return Err(p.error);
        }
        components := components[kid.id := p.value];
      }
      i := i + 1;
    }
    return Ok(Projection(fields, Some(components)));
  }

  /** The first error raised among the children ends the projection. */
  lemma {:induction false} ComponentsErrorSticks(reg: Registry, t: Tree, n: nat, m: nat)
    requires t.Node? && n <= m <= |t.kids|
    requires Components(reg, t, n).Err?
    ensures Components(reg, t, m) == Components(reg, t, n)
    decreases m
  {
    if m > n {
      ComponentsErrorSticks(reg, t, n, m - 1);
    }
  }

  /** A child is counted in the projection: resolved, and of a class that
      has `build_user_state_data`. */
  predicate Projected(reg: Registry, kid: Tree)
  {
    kid.Node? && StudentViewUserStateMixin in reg(kid.block.id.blockType).lineage
  }

  /** The projection of the first `n` children fails exactly when one of them
      is missing or fails to project; otherwise its keys are exactly the ids
      of the projected children, each holding the projection of the last
      child with that id. */
  lemma {:induction false} ComponentsShape(reg: Registry, t: Tree, n: nat)
    requires t.Node? && n <= |t.kids|
    ensures Components(reg, t, n).Ok? <==>
      forall i :: 0 <= i < n ==> t.kids[i].Node? && (Projected(reg, t.kids[i]) ==> Project(reg, t.kids[i]).Ok?)
    ensures Components(reg, t, n).Ok? ==>
      forall k :: k in Components(reg, t, n).value <==>
        exists i :: 0 <= i < n && Projected(reg, t.kids[i]) && t.kids[i].id == k
    ensures Components(reg, t, n).Ok? ==>
      forall i ::
        (&& 0 <= i < n && Projected(reg, t.kids[i])
         && forall j :: i < j < n && Projected(reg, t.kids[j]) ==> t.kids[j].id != t.kids[i].id)
        ==> Components(reg, t, n).value[t.kids[i].id] == Project(reg, t.kids[i]).value
  {
    ComponentsOk(reg, t, n);
    if Components(reg, t, n).Ok? {
      ComponentsKeys(reg, t, n);
      ComponentsLastWins(reg, t, n);
    }
  }

  /** The components are computed iff every child resolves and every
      projected child projects. */
  lemma {:induction false} ComponentsOk(reg: Registry, t: Tree, n: nat)
    requires t.Node? && n <= |t.kids|
    ensures Components(reg, t, n).Ok? <==>
      forall i :: 0 <= i < n ==> t.kids[i].Node? && (Projected(reg, t.kids[i]) ==> Project(reg, t.kids[i]).Ok?)
  {
    if n > 0 {
      ComponentsOk(reg, t, n - 1);
    }
  }

  /** The keys of the components are the ids of the projected children. */
  lemma {:induction false} ComponentsKeys(reg: Registry, t: Tree, n: nat)
    requires t.Node? && n <= |t.kids| && Components(reg, t, n).Ok?
    ensures forall k :: k in Components(reg, t, n).value <==>
      exists i :: 0 <= i < n && Projected(reg, t.kids[i]) && t.kids[i].id == k
  {
    if n > 0 {
      ComponentsKeys(reg, t, n - 1);
    }
  }

  /** A projected child that no later projected child shares its id with
      leaves its projection under that id. */
  lemma {:induction false} ComponentsLastWins(reg: Registry, t: Tree, n: nat)
    requires t.Node? && n <= |t.kids| && Components(reg, t, n).Ok?
    ensures forall i ::
      (&& 0 <= i < n && Projected(reg, t.kids[i])
       && forall j :: i < j < n && Projected(reg, t.kids[j]) ==> t.kids[j].id != t.kids[i].id)
      ==> && t.kids[i].id in Components(reg, t, n).value && Project(reg, t.kids[i]).Ok?
          && Components(reg, t, n).value[t.kids[i].id] == Project(reg, t.kids[i]).value
  {
    if n > 0 {
      ComponentsLastWins(reg, t, n - 1);
    }
  }

  /** The projection of a childless class has no `components`; that of a
      class with children fails on a missing child, as `runtime.get_block`
      raises for it. */
  lemma MissingChildFails(reg: Registry, t: Tree, i: nat)
    requires t.Node? && reg(t.block.id.blockType).hasChildren
    requires i < |t.kids| && t.kids[i].Missing?
    ensures Project(reg, t).Err?
  {
    ComponentsShape(reg, t, |t.kids|);
  }
}
