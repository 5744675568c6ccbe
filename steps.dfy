/** The step registry of problem_builder/mixins.py: `StepParentMixin.step_ids`
    and `steps` (lines 87-99), and `EnumerableChildMixin.step_number`,
    `lonely_child` and `display_name_with_default` (lines 59-79).

    The `@lazy` properties are values computed once: a question's `siblings`
    is its parent's `step_ids`, passed in here as a sequence. */
module Steps {
  import opened Keys
  import opened Content
  import opened Text

  /** `QuestionMixin.CAPTION`; translation is the identity. */
  const Caption := "Question"

  /** `step_ids`: the normalised ids of the children that are questions. */
  function StepIds(reg: Registry, children: seq<Key>): (r: seq<Key>)
    ensures |r| <= |children|
    ensures forall k :: k in r ==> Normalized(k)
  {
    if children == [] then []
    else
      var rest := StepIds(reg, children[1..]);
      if IsA(reg, children[0], QuestionMixin) then [NormalizeId(children[0])] + rest else rest
  }

  /** The step list keeps exactly the question children: an id is a step id
      iff some question child normalises to it. */
  lemma {:induction false} StepIdsMembers(reg: Registry, children: seq<Key>, k: Key)
    ensures k in StepIds(reg, children) <==>
      exists i :: 0 <= i < |children| && IsA(reg, children[i], QuestionMixin) && NormalizeId(children[i]) == k
  {
    if children != [] {
      StepIdsMembers(reg, children[1..], k);
      if exists i :: 0 <= i < |children| && IsA(reg, children[i], QuestionMixin) && NormalizeId(children[i]) == k {
        var i :| 0 <= i < |children| && IsA(reg, children[i], QuestionMixin) && NormalizeId(children[i]) == k;
        if i > 0 {
          assert children[1..][i - 1] == children[i];
        }
      }
      if exists j :: 0 <= j < |children[1..]| && IsA(reg, children[1..][j], QuestionMixin) && NormalizeId(children[1..][j]) == k {
        var j :| 0 <= j < |children[1..]| && IsA(reg, children[1..][j], QuestionMixin) && NormalizeId(children[1..][j]) == k;
        assert children[j + 1] == children[1..][j];
      }
    }
  }

  /** The number of steps is the number of question children. */
  function CountQuestions(reg: Registry, children: seq<Key>): nat
  {
    if children == [] then 0
    else CountQuestions(reg, children[1..]) + if IsA(reg, children[0], QuestionMixin) then 1 else 0
  }

  /** Order is kept: appending a child appends its normalised id exactly when
      it is a question. */
  lemma {:induction false} StepIdsAppend(reg: Registry, children: seq<Key>, c: Key)
    ensures StepIds(reg, children + [c]) ==
      StepIds(reg, children) + if IsA(reg, c, QuestionMixin) then [NormalizeId(c)] else []
    ensures |StepIds(reg, children)| == CountQuestions(reg, children)
  {
    if children == [] {
      assert children + [c] == [c];
    } else {
      assert (children + [c])[1..] == children[1..] + [c];
      StepIdsAppend(reg, children[1..], c);
    }
  }

  /** `steps`: each step id resolved through `runtime.get_block`, which fails
      on an id it does not know. */
  function Steps(blocks: map<Key, Block>, ids: seq<Key>): (r: Result<seq<Block>>)
    ensures r.Ok? <==> forall i :: 0 <= i < |ids| ==> ids[i] in blocks
    ensures r.Ok? ==> |r.value| == |ids| && forall i :: 0 <= i < |ids| ==> r.value[i] == blocks[ids[i]]
    ensures r.Err? ==> r.error.ItemNotFound? && r.error.key in ids && r.error.key !in blocks
  {
    if ids == [] then Ok([])
    else if ids[0] !in blocks then Err(ItemNotFound(ids[0]))
    else
      var rest := Steps(blocks, ids[1..]);
      if rest.Err? then
        assert ids == [ids[0]] + ids[1..];
        rest
      else
        assert forall i :: 1 <= i < |ids| ==> ids[i] == ids[1..][i - 1];
        Ok([blocks[ids[0]]] + rest.value)
  }

  /** `list.index(x)`: the first position of `x`, if any. */
  function IndexOf(s: seq<Key>, x: Key): (r: Option<nat>)
    ensures r.None? <==> x !in s
    ensures r.Some? ==> r.value < |s| && s[r.value] == x && x !in s[..r.value]
  {
    if s == [] then None
    else if s[0] == x then Some(0)
    else
      var rest := IndexOf(s[1..], x);
      if rest.None? then None
      else
        assert s[1..][..rest.value] == s[1..rest.value + 1];
        Some(rest.value + 1)
  }

  /** `step_number`: one plus the index of the child's normalised id among
      its siblings; `list.index` raises ValueError when it is absent. */
  function StepNumber(siblings: seq<Key>, id: Key): (r: Result<nat>)
    ensures r.Err? <==> NormalizeId(id) !in siblings
    ensures r.Err? ==> r.error == NotInParent(id)
    ensures r.Ok? ==> 1 <= r.value <= |siblings| && siblings[r.value - 1] == NormalizeId(id)
    ensures r.Ok? ==> NormalizeId(id) !in siblings[..r.value - 1]
  {
    match IndexOf(siblings, NormalizeId(id))
    case None => Err(NotInParent(id))
    case Some(i) => Ok(i + 1)
  }

  /** With distinct step ids, step numbers are a bijection onto 1..N: the
      k-th step id gets number k, ... */
  lemma StepNumberOfKth(siblings: seq<Key>, k: nat)
    requires forall i, j :: 0 <= i < j < |siblings| ==> siblings[i] != siblings[j]
    requires forall i :: 0 <= i < |siblings| ==> Normalized(siblings[i])
    requires 1 <= k <= |siblings|
    ensures StepNumber(siblings, siblings[k - 1]) == Ok(k)
  {
  }

  /** ... and steps whose normalised ids differ get different numbers. */
  lemma StepNumberInjective(siblings: seq<Key>, a: Key, b: Key)
    requires NormalizeId(a) != NormalizeId(b)
    requires StepNumber(siblings, a).Ok? && StepNumber(siblings, b).Ok?
    ensures StepNumber(siblings, a).value != StepNumber(siblings, b).value
  {
  }

  /** `lonely_child`: ValueError when the child is not among its siblings,
      otherwise whether it is the only one. */
  function LonelyChild(siblings: seq<Key>, id: Key): (r: Result<bool>)
    ensures r.Err? <==> NormalizeId(id) !in siblings
    ensures r.Err? ==> r.error == NotInParent(id)
    ensures r.Ok? ==> (r.value <==> |siblings| == 1)
    ensures r.Ok? && r.value ==> siblings == [NormalizeId(id)]
  {
    if NormalizeId(id) !in siblings then Err(NotInParent(id)) else Ok(|siblings| == 1)
  }

  /** `display_name_with_default`: the author's title, else a default title
      that begins with the caption; only the default needs the child to be
      among its siblings. */
  function DisplayNameWithDefault(displayName: string, siblings: seq<Key>, id: Key): (r: Result<string>)
    ensures displayName != "" ==> r == Ok(displayName)
    ensures r.Err? <==> displayName == "" && NormalizeId(id) !in siblings
    ensures r.Err? ==> r.error == NotInParent(id)
    ensures r.Ok? && displayName == "" ==> Caption <= r.value
  {
    if displayName != "" then Ok(displayName)
    else
      match LonelyChild(siblings, id)
      case Err(e) => Err(e)
      case Ok(lonely) =>
        if !lonely then
          match StepNumber(siblings, id)
          case Err(e) => Err(e)
          case Ok(n) => Ok(Caption + " " + NatToString(n))
        else Ok(Caption)
  }

  /** The three cases of the default title: an author's title is returned
      as it is, without any membership check; otherwise a child missing from
      its parent is a ValueError; a lonely step is just "Question"; any other
      step is "Question k" for its step number k. */
  lemma DisplayNameCases(displayName: string, siblings: seq<Key>, id: Key)
    ensures displayName != "" ==> DisplayNameWithDefault(displayName, siblings, id) == Ok(displayName)
    ensures displayName == "" && NormalizeId(id) !in siblings ==>
      DisplayNameWithDefault(displayName, siblings, id) == Err(NotInParent(id))
    ensures displayName == "" && NormalizeId(id) in siblings && |siblings| == 1 ==>
      DisplayNameWithDefault(displayName, siblings, id) == Ok(Caption)
    ensures displayName == "" && NormalizeId(id) in siblings && |siblings| != 1 ==>
      StepNumber(siblings, id).Ok? &&
      DisplayNameWithDefault(displayName, siblings, id) == Ok(Caption + " " + NatToString(StepNumber(siblings, id).value))
  {
  }

  /** With distinct step ids and more than one step, the k-th step's default
      title is "Question k". */
  lemma DefaultTitleOfKth(siblings: seq<Key>, i: nat)
    requires forall p, q :: 0 <= p < q < |siblings| ==> siblings[p] != siblings[q]
    requires forall p :: 0 <= p < |siblings| ==> Normalized(siblings[p])
    requires |siblings| > 1 && i < |siblings|
    ensures DisplayNameWithDefault("", siblings, siblings[i]) == Ok(Caption + " " + NatToString(i + 1))
  {
  }

  /** No two steps share a default title. */
  lemma DefaultTitlesDistinct(siblings: seq<Key>, i: nat, j: nat)
    requires forall p, q :: 0 <= p < q < |siblings| ==> siblings[p] != siblings[q]
    requires forall p :: 0 <= p < |siblings| ==> Normalized(siblings[p])
    requires |siblings| > 1 && i < j < |siblings|
    ensures DisplayNameWithDefault("", siblings, siblings[i]) != DisplayNameWithDefault("", siblings, siblings[j])
  {
    DefaultTitleOfKth(siblings, i);
    DefaultTitleOfKth(siblings, j);
    NumberedTitleInjective(i + 1, j + 1);
  }

  /** Titles "Question m" and "Question n" differ for different m and n. */
  lemma NumberedTitleInjective(m: nat, n: nat)
    requires m != n
    ensures Caption + " " + NatToString(m) != Caption + " " + NatToString(n)
  {
    var tm, tn := Caption + " " + NatToString(m), Caption + " " + NatToString(n);
    assert NatToString(m) == tm[|Caption| + 1..];
    assert NatToString(n) == tn[|Caption| + 1..];
    if tm == tn {
      NatToStringInjective(m, n);
    }
  }
}
