/** The CSV answer export of problem_builder/tasks.py: `export_data` with its
    root ascent, block-type selection and `scan_for_blocks`, and the helpers
    `_extract_data`, `_get_context` and `_get_answer`.

    The modulestore, the runtime, the submission store and the username
    lookup are the fields of a `Store` value. */
module Export {
  import opened Keys
  import opened Content
  import opened Text

  const MCQBlock := "MCQBlock"
  const RatingBlock := "RatingBlock"
  const AnswerBlock := "AnswerBlock"

  /** The names `type_map` knows. */
  const TypeMap: set<string> := {MCQBlock, RatingBlock, AnswerBlock}

  const Header: seq<string> := ["Section", "Subsection", "Unit", "Type", "Question", "Answer", "Username"]

  /** Data rows shown in the preview. */
  const PreviewLimit := 1000

  /** A submission: its `student_id` key, when present, and its answer. */
  datatype Submission = Submission(studentId: Option<string>, answer: string)

  /** The services the export consults. */
  datatype Store = Store(
    reg: Registry,                                             // block type -> class
    lookup: string -> seq<Option<Block>>,                      // modulestore().get_items(course, name=...)
    resolve: Block -> seq<Tree>,                               // runtime.get_block over a block's children, recursively
    ancestors: Key -> seq<Option<Block>>,                      // what get_parent() returns, call after call
    items: map<Key, Block>,                                    // modulestore().get_item
    allSubmissions: (string, Key, string) -> seq<Submission>,  // sub_api.get_all_submissions
    studentSubmissions: (string, Key, string, string) -> seq<Submission>, // sub_api.get_submissions
    usernames: string -> string)                               // user_by_anonymous_id(...).username

  // ---------------------------------------------------------------------
  // Block-type selection (tasks.py:45-50)

  /** `block_types` after the `type_map` step: every known class when none
      is named, otherwise the named ones; an unknown name is a KeyError. */
  function SelectTypes(names: seq<string>): (r: Result<set<string>>)
    ensures r.Ok? <==> forall i :: 0 <= i < |names| ==> names[i] in TypeMap
    ensures r.Ok? && names == [] ==> r.value == TypeMap
    ensures r.Ok? && names != [] ==> forall n :: n in r.value <==> n in names
    ensures r.Err? ==> exists i :: 0 <= i < |names| && names[i] !in TypeMap && r.error == UnknownBlockType(names[i])
  {
    if names == [] then Ok(TypeMap) else NamedTypes(names)
  }

  /** The classes named in a non-empty list, failing at the first unknown name. */
  function NamedTypes(names: seq<string>): (r: Result<set<string>>)
    ensures r.Ok? <==> forall i :: 0 <= i < |names| ==> names[i] in TypeMap
    ensures r.Ok? ==> forall n :: n in r.value <==> n in names
    ensures r.Err? ==> exists i :: 0 <= i < |names| && names[i] !in TypeMap && r.error == UnknownBlockType(names[i])
  {
    if names == [] then Ok({})
    else if names[0] !in TypeMap then Err(UnknownBlockType(names[0]))
    else
      match NamedTypes(names[1..])
      case Err(e) => Err(e)
      case Ok(s) => Ok({names[0]} + s)
  }

  // ---------------------------------------------------------------------
  // The tree scan (tasks.py:52-67)

  /** The blocks `scan_for_blocks` collects, in order: a selected block and
      not its descendants; the children of an unselected block with
      children; nothing for a child that could not be found. */
  function Scan(reg: Registry, types: set<string>, t: Tree): seq<Block>
  {
    match t
    case Missing(_) => []
    case Node(_, b, kids) =>
      if InstanceOfAny(reg, b, types) then [b]
      else if reg(b.id.blockType).hasChildren then ScanAll(reg, types, kids)
      else []
  }

  /** The scans of a list of children, concatenated in order. */
  function ScanAll(reg: Registry, types: set<string>, ts: seq<Tree>): seq<Block>
  {
    if ts == [] then [] else ScanAll(reg, types, ts[..|ts| - 1]) + Scan(reg, types, ts[|ts| - 1])
  }

  /** The resolved blocks of a tree, in pre-order. */
  function Blocks(t: Tree): seq<Block>
  {
    match t
    case Missing(_) => []
    case Node(_, b, kids) => [b] + BlocksAll(kids)
  }

  function BlocksAll(ts: seq<Tree>): seq<Block>
  {
    if ts == [] then [] else BlocksAll(ts[..|ts| - 1]) + Blocks(ts[|ts| - 1])
  }

  /** The blocks collected by the scan: `blocks_to_include` and the closure
      `scan_for_blocks` that appends to it. */
  class Collector {
    const reg: Registry
    const types: set<string>
    var blocksToInclude: seq<Block>

    constructor (reg: Registry, types: set<string>)
      ensures this.reg == reg && this.types == types && blocksToInclude == []
    {
      this.reg := reg;
      this.types := types;
      blocksToInclude := [];
    }

    /** `scan_for_blocks(block)`: appends what `Scan` collects below `t`. */
    method ScanForBlocks(t: Tree)
      requires t.Node?
      modifies this
      ensures blocksToInclude == old(blocksToInclude) + Scan(reg, types, t)
      decreases t
    {
      if InstanceOfAny(reg, t.block, types) {
        blocksToInclude := blocksToInclude + [t.block];
      } else if reg(t.block.id.blockType).hasChildren {
        var i := 0;
        while i < |t.kids|
          invariant 0 <= i <= |t.kids|
          invariant blocksToInclude == old(blocksToInclude) + ScanAll(reg, types, t.kids[..i])
        {
          assert t.kids[..i + 1][..i] == t.kids[..i];
          var kid := t.kids[i];
          if kid.Node? {
            ScanForBlocks(kid);
          }
          i := i + 1;
        }
        assert t.kids[..i] == t.kids;
      }
    }
  }

  /** Scanning two runs of children scans each in turn. */
  lemma {:induction false} ScanAllAppend(reg: Registry, types: set<string>, a: seq<Tree>, b: seq<Tree>)
    ensures ScanAll(reg, types, a + b) == ScanAll(reg, types, a) + ScanAll(reg, types, b)
    decreases |b|
  {
    if b == [] {
      assert a + b == a;
    } else {
      assert (a + b)[..|a + b| - 1] == a + b[..|b| - 1];
      ScanAllAppend(reg, types, a, b[..|b| - 1]);
    }
  }

  /** A child that cannot be found changes nothing: its siblings are scanned
      as if it were not there. */
  lemma ScanSkipsMissing(reg: Registry, types: set<string>, before: seq<Tree>, k: Key, after: seq<Tree>)
    ensures ScanAll(reg, types, before + [Missing(k)] + after) == ScanAll(reg, types, before + after)
  {
    ScanAllAppend(reg, types, before + [Missing(k)], after);
    ScanAllAppend(reg, types, before, [Missing(k)]);
    ScanAllAppend(reg, types, before, after);
    assert ScanAll(reg, types, [Missing(k)]) == [] by {
      assert [Missing(k)][..0] == [];
    }
  }

  /** Every collected block is selected and is one of the tree's resolved
      blocks; the scan collects no more blocks than the tree holds. */
  lemma {:induction false} ScanSound(reg: Registry, types: set<string>, t: Tree)
    ensures forall b :: b in Scan(reg, types, t) ==> InstanceOfAny(reg, b, types) && b in Blocks(t)
    ensures |Scan(reg, types, t)| <= |Blocks(t)|
    decreases t, 0
  {
    if t.Node? && !InstanceOfAny(reg, t.block, types) && reg(t.block.id.blockType).hasChildren {
      ScanAllSound(reg, types, t.kids);
    }
  }

  lemma {:induction false} ScanAllSound(reg: Registry, types: set<string>, ts: seq<Tree>)
    ensures forall b :: b in ScanAll(reg, types, ts) ==> InstanceOfAny(reg, b, types) && b in BlocksAll(ts)
    ensures |ScanAll(reg, types, ts)| <= |BlocksAll(ts)|
    decreases ts
  {
    if ts != [] {
      ScanAllSound(reg, types, ts[..|ts| - 1]);
      ScanSound(reg, types, ts[|ts| - 1]);
    }
  }

  // ---------------------------------------------------------------------
  // The parent chain (tasks.py:39-43 and 133-137)

  /** A block followed by the ancestors `get_parent()` returns, up to a
      block without a parent or up to a call that returned None. `chain`
      holds what the successive calls return; a call past its end is an
      ItemNotFoundError, and so is a returned block whose key is not the
      parent key up to branch and version, which `runtime.get_block` never
      returns. */
  function Lineage(b: Block, chain: seq<Option<Block>>): (r: Result<seq<Block>>)
    ensures r.Ok? ==> |r.value| > 0 && r.value[0] == b
    ensures r.Err? ==> r.error.ItemNotFound?
    decreases |chain|
  {
    if b.parent.None? || (chain != [] && chain[0].None?) then Ok([b])
    else if chain == [] || NormalizeId(chain[0].value.id) != NormalizeId(b.parent.value) then Err(ItemNotFound(b.parent.value))
    else
      match Lineage(chain[0].value, chain[1..])
      case Err(e) => Err(e)
      case Ok(l) => Ok([b] + l)
  }

  function Last(l: seq<Block>): Block
    requires l != []
  {
    l[|l| - 1]
  }

  /** A lineage that reaches the course root: its last block has no parent. */
  predicate Rooted(l: seq<Block>)
  {
    l != [] && Last(l).parent.None?
  }

  /** Each block of a lineage is the parent of the one before (its key is
      the parent key up to branch and version), as the
      successive `get_parent()` calls returned it; a lineage that stops
      short of the root stops at a call that returned None. */
  lemma {:induction false} LineageLinks(b: Block, chain: seq<Option<Block>>)
    requires Lineage(b, chain).Ok?
    ensures var l := Lineage(b, chain).value;
      && |l| <= |chain| + 1
      && (forall i :: 0 <= i < |l| - 1 ==> l[i].parent.Some? && NormalizeId(l[i].parent.value) == NormalizeId(l[i + 1].id) && chain[i] == Some(l[i + 1]))
      && (!Rooted(l) ==> |l| <= |chain| && chain[|l| - 1].None?)
    decreases |chain|
  {
    if b.parent.Some? && chain[0].Some? {
      LineageLinks(chain[0].value, chain[1..]);
      var l := Lineage(chain[0].value, chain[1..]).value;
      assert Lineage(b, chain).value == [b] + l;
      forall i | 1 <= i < |l|
        ensures ([b] + l)[i].parent.Some? && NormalizeId(([b] + l)[i].parent.value) == NormalizeId(([b] + l)[i + 1].id) && chain[i] == Some(([b] + l)[i + 1])
      {
        assert ([b] + l)[i] == l[i - 1] && ([b] + l)[i + 1] == l[i] && chain[i] == chain[1..][i - 1];
      }
      if !Rooted(l) {
        assert chain[|l|] == chain[1..][|l| - 1];
      }
    }
  }

  /** The root ascent: `while root.parent: root = root.get_parent()`; a
      None returned by `get_parent()` raises AttributeError at the next
      `.parent`. */
  method FindRoot(src: Block, chain: seq<Option<Block>>) returns (r: Result<Block>)
    ensures r.Ok? <==> Lineage(src, chain).Ok? && Rooted(Lineage(src, chain).value)
    ensures Lineage(src, chain).Err? ==> r == Err(Lineage(src, chain).error)
    ensures Lineage(src, chain).Ok? && !Rooted(Lineage(src, chain).value) ==>
      r == Err(NoneParent(Last(Lineage(src, chain).value).parent.value))
    ensures r.Ok? ==> r.value.parent.None? && r.value == Last(Lineage(src, chain).value)
  {
    var root := src;
    var i := 0;
    while root.parent.Some?
      invariant 0 <= i <= |chain|
      invariant Lineage(src, chain).Ok? <==> Lineage(root, chain[i..]).Ok?
      invariant Lineage(src, chain).Err? ==> Lineage(src, chain) == Lineage(root, chain[i..])
      invariant Lineage(src, chain).Ok? ==> Last(Lineage(src, chain).value) == Last(Lineage(root, chain[i..]).value)
      decreases |chain| - i
    {
      if i == |chain| || (chain[i].Some? && NormalizeId(chain[i].value.id) != NormalizeId(root.parent.value)) {
        return Err(ItemNotFound(root.parent.value));
      }
      if chain[i].None? {
        return Err(NoneParent(root.parent.value));
      }
      assert chain[i..][1..] == chain[i + 1..];
      root := chain[i].value;
      i := i + 1;
    }
    return Ok(root);
  }

  // ---------------------------------------------------------------------
  // Section, subsection and unit (tasks.py:128-141)

  /** The name recorded last for a block type: that of the outermost block
      of the type in the lineage. */
  function LastName(lineage: seq<Block>, ty: string): Option<string>
  {
    if lineage == [] then None
    else if lineage[|lineage| - 1].id.blockType == ty then Some(lineage[|lineage| - 1].displayName)
    else LastName(lineage[..|lineage| - 1], ty)
  }

  /** `block_names_by_type.get(ty, '')`. */
  function NameOr(lineage: seq<Block>, ty: string): string
  {
    match LastName(lineage, ty)
    case Some(n) => n
    case None => ""
  }

  /** The recorded name of a type is that of the outermost block of the
      type, and a type with no block gets nothing. */
  lemma {:induction false} LastNameIsOutermost(lineage: seq<Block>, ty: string)
    ensures LastName(lineage, ty).None? <==> forall i :: 0 <= i < |lineage| ==> lineage[i].id.blockType != ty
    ensures LastName(lineage, ty).Some? ==>
      exists i :: 0 <= i < |lineage| && lineage[i].id.blockType == ty &&
        LastName(lineage, ty).value == lineage[i].displayName &&
        forall j :: i < j < |lineage| ==> lineage[j].id.blockType != ty
  {
    if lineage != [] {
      var n := |lineage| - 1;
      LastNameIsOutermost(lineage[..n], ty);
      if lineage[n].id.blockType != ty && LastName(lineage, ty).Some? {
        var i :| 0 <= i < n && lineage[..n][i].id.blockType == ty &&
          LastName(lineage[..n], ty).value == lineage[..n][i].displayName &&
          forall j :: i < j < n ==> lineage[..n][j].id.blockType != ty;
        assert lineage[i] == lineage[..n][i];
      }
    }
  }

  datatype Context = Context(section: string, subsection: string, unit: string)

  /** `_get_context`: the names of the chapter, sequential and vertical above
      (or at) the block. */
  function ContextOf(lineage: seq<Block>): Context
  {
    Context(NameOr(lineage, "chapter"), NameOr(lineage, "sequential"), NameOr(lineage, "vertical"))
  }

  /** `d.get(k)`. */
  function Get(d: map<string, string>, k: string): Option<string>
  {
    if k in d then Some(d[k]) else None
  }

  /** `d.get(k, '')`. */
  function GetOr(d: map<string, string>, k: string): string
  {
    if k in d then d[k] else ""
  }

  /** The walk `_get_context` makes from `iter` up, recording each visited
      block's name under its type in `names`. */
  function Walk(iter: Block, chain: seq<Option<Block>>, names: map<string, string>): Result<map<string, string>>
    decreases |chain|
  {
    var recorded := names[iter.id.blockType := iter.displayName];
    if iter.parent.None? || (chain != [] && chain[0].None?) then Ok(recorded)
    else if chain == [] || NormalizeId(chain[0].value.id) != NormalizeId(iter.parent.value) then Err(ItemNotFound(iter.parent.value))
    else Walk(chain[0].value, chain[1..], recorded)
  }

  /** The walk visits exactly the lineage, and leaves under each type the
      name of the last block of that type it visited. */
  lemma {:induction false} WalkRecordsLineage(iter: Block, chain: seq<Option<Block>>, names: map<string, string>)
    ensures Walk(iter, chain, names).Ok? <==> Lineage(iter, chain).Ok?
    ensures Walk(iter, chain, names).Err? ==> Walk(iter, chain, names) == Err(Lineage(iter, chain).error)
    ensures Walk(iter, chain, names).Ok? ==> forall ty ::
      Get(Walk(iter, chain, names).value, ty) ==
        if LastName(Lineage(iter, chain).value, ty).Some? then LastName(Lineage(iter, chain).value, ty) else Get(names, ty)
    decreases |chain|
  {
    var recorded := names[iter.id.blockType := iter.displayName];
    if iter.parent.Some? && chain != [] && chain[0].Some? && NormalizeId(chain[0].value.id) == NormalizeId(iter.parent.value) {
      WalkRecordsLineage(chain[0].value, chain[1..], recorded);
      if Lineage(iter, chain).Ok? {
        var l := Lineage(chain[0].value, chain[1..]).value;
        forall ty ensures LastName([iter] + l, ty) ==
          if LastName(l, ty).Some? then LastName(l, ty) else if iter.id.blockType == ty then Some(iter.displayName) else None
        {
          LastNameCons(iter, l, ty);
        }
      }
    }
  }

  /** Putting a block in front of a lineage only matters for a type the rest
      does not have. */
  lemma {:induction false} LastNameCons(x: Block, l: seq<Block>, ty: string)
    ensures LastName([x] + l, ty) ==
      if LastName(l, ty).Some? then LastName(l, ty) else if x.id.blockType == ty then Some(x.displayName) else None
    decreases |l|
  {
    if l != [] {
      assert ([x] + l)[..|[x] + l| - 1] == [x] + l[..|l| - 1];
      LastNameCons(x, l[..|l| - 1], ty);
    } else {
      assert [x] + l == [x];
      assert [x][..0] == [];
    }
  }

  /** `_get_context(block)`: walks up from the block, recording each visited
      block's name under its type, later visits overwriting earlier ones; a
      None from `get_parent()` ends the walk. */
  method GetContext(b: Block, chain: seq<Option<Block>>) returns (r: Result<Context>)
    ensures r.Ok? <==> Lineage(b, chain).Ok?
    ensures r.Err? ==> r == Err(Lineage(b, chain).error)
    ensures r.Ok? ==> r.value == ContextOf(Lineage(b, chain).value)
  {
    var names: map<string, string> := map[];
    var iter := b;
    var i := 0;
    while true
      invariant 0 <= i <= |chain|
      invariant Walk(b, chain, map[]) == Walk(iter, chain[i..], names)
      decreases |chain| - i
    {
      names := names[iter.id.blockType := iter.displayName];
      if iter.parent.None? || (i < |chain| && chain[i].None?) {
        break;
      }
      if i == |chain| || NormalizeId(chain[i].value.id) != NormalizeId(iter.parent.value) {
        WalkRecordsLineage(b, chain, map[]);
        return Err(ItemNotFound(iter.parent.value));
      }
      assert chain[i..][1..] == chain[i + 1..];
      iter := chain[i].value;
      i := i + 1;
    }
    WalkContext(b, chain, names);
    return Ok(Context(GetOr(names, "chapter"), GetOr(names, "sequential"), GetOr(names, "vertical")));
  }

  /** The three columns read off a finished walk are those of the lineage. */
  lemma WalkContext(b: Block, chain: seq<Option<Block>>, names: map<string, string>)
    requires Walk(b, chain, map[]) == Ok(names)
    ensures Lineage(b, chain).Ok?
    ensures Context(GetOr(names, "chapter"), GetOr(names, "sequential"), GetOr(names, "vertical")) ==
      ContextOf(Lineage(b, chain).value)
  {
    WalkRecordsLineage(b, chain, map[]);
    assert Get(names, "chapter") == LastName(Lineage(b, chain).value, "chapter");
    assert Get(names, "sequential") == LastName(Lineage(b, chain).value, "sequential");
    assert Get(names, "vertical") == LastName(Lineage(b, chain).value, "vertical");
  }

  // ---------------------------------------------------------------------
  // The displayed answer (tasks.py:180-195)

  /** The answer after the choice lookup: the content of the first choice
      whose value is the raw answer; `modulestore().get_item` raises on a
      choice it does not hold. */
  function ChoiceAnswer(items: map<Key, Block>, choices: seq<Key>, raw: string): Result<string>
  {
    if choices == [] then Ok(raw)
    else if choices[0] !in items then Err(ItemNotFound(choices[0]))
    else if items[choices[0]].value == raw then Ok(items[choices[0]].content)
    else ChoiceAnswer(items, choices[1..], raw)
  }

  /** `_get_answer(block, submission)`: a block without a `children`
      attribute keeps the raw answer. */
  function AnswerOf(store: Store, b: Block, s: Submission): Result<string>
  {
    if store.reg(b.id.blockType).hasChildren then ChoiceAnswer(store.items, b.children, s.answer) else Ok(s.answer)
  }

  /** `_get_answer`: the choice loop with its `break`. */
  method GetAnswer(store: Store, b: Block, s: Submission) returns (r: Result<string>)
    ensures r == AnswerOf(store, b, s)
  {
    var answer := s.answer;
    if !store.reg(b.id.blockType).hasChildren {
      return Ok(answer);
    }
    var choices := b.children;
    var i := 0;
    while i < |choices|
      invariant 0 <= i <= |choices|
      invariant ChoiceAnswer(store.items, choices, s.answer) == ChoiceAnswer(store.items, choices[i..], s.answer)
    {
      assert choices[i..][1..] == choices[i + 1..];
      if choices[i] !in store.items {
        return Err(ItemNotFound(choices[i]));
      }
      var choice := store.items[choices[i]];
      if choice.value == answer {
        answer := choice.content;
        break;
      }
      i := i + 1;
    }
    return Ok(answer);
  }

  /** The choice lookup substitutes the first matching choice's content, and
      keeps the raw answer when every choice is found and none matches. */
  lemma {:induction false} ChoiceAnswerCases(items: map<Key, Block>, choices: seq<Key>, raw: string, i: nat)
    requires i <= |choices|
    requires forall j :: 0 <= j < i ==> choices[j] in items && items[choices[j]].value != raw
    ensures i < |choices| && choices[i] in items && items[choices[i]].value == raw ==>
      ChoiceAnswer(items, choices, raw) == Ok(items[choices[i]].content)
    ensures i == |choices| ==> ChoiceAnswer(items, choices, raw) == Ok(raw)
  {
    if i > 0 {
      forall j | 0 <= j < i - 1 ensures choices[1..][j] in items && items[choices[1..][j]].value != raw {
        assert choices[1..][j] == choices[j + 1];
      }
      ChoiceAnswerCases(items, choices[1..], raw, i - 1);
    }
  }

  // ---------------------------------------------------------------------
  // The rows of one block (tasks.py:95-125, 151-177)

  /** `_get_submissions`: every student's latest submission, or at most one
      (`limit=1`) for the one student asked for. */
  function SubmissionsFor(store: Store, course: string, b: Block, userId: string): (r: seq<Submission>)
    ensures userId != "" ==> |r| <= 1
  {
    if userId == "" then store.allSubmissions(course, NormalizeId(b.id), b.id.blockType)
    else
      var s := store.studentSubmissions(userId, NormalizeId(b.id), course, b.id.blockType);
      if |s| <= 1 then s else s[..1]
  }

  /** `_get_username`: the submission's `student_id`, else the export's user. */
  function UserOf(store: Store, userId: string, s: Submission): (r: string)
    ensures s.studentId.Some? ==> r == store.usernames(s.studentId.value)
    ensures s.studentId.None? ==> r == store.usernames(userId)
  {
    store.usernames(if s.studentId.Some? then s.studentId.value else userId)
  }

  /** The row filter: `match_string.lower() in answer.lower()`, a window of
      the lower-cased answer equal to the lower-cased match string; the
      empty match string keeps every answer. */
  function Keep(matchString: string, answer: string): (r: bool)
    ensures r <==> Occurs(Lower(matchString), Lower(answer))
    ensures matchString == "" ==> r
  {
    ContainsOccurs(Lower(matchString), Lower(answer));
    EmptyOccurs(Lower(answer));
    Contains(Lower(matchString), Lower(answer))
  }

  function MakeRow(ctx: Context, b: Block, answer: string, username: string): seq<string>
  {
    [ctx.section, ctx.subsection, ctx.unit, b.id.blockType, b.question, answer, username]
  }

  /** The displayed answers of the first `n` submissions. */
  function Answers(store: Store, b: Block, subs: seq<Submission>, n: nat): (r: Result<seq<string>>)
    requires n <= |subs|
    ensures r.Ok? <==> forall i :: 0 <= i < n ==> AnswerOf(store, b, subs[i]).Ok?
    ensures r.Ok? ==> |r.value| == n && forall i :: 0 <= i < n ==> AnswerOf(store, b, subs[i]) == Ok(r.value[i])
  {
    if n == 0 then Ok([])
    else
      match Answers(store, b, subs, n - 1)
      case Err(e) => Err(e)
      case Ok(a) =>
        match AnswerOf(store, b, subs[n - 1])
        case Err(e) => Err(e)
        case Ok(x) => Ok(a + [x])
  }

  /** The first error among the answers ends the extraction. */
  lemma {:induction false} AnswersErrorSticks(store: Store, b: Block, subs: seq<Submission>, n: nat, m: nat)
    requires n <= m <= |subs| && Answers(store, b, subs, n).Err?
    ensures Answers(store, b, subs, m) == Answers(store, b, subs, n)
    decreases m
  {
    if m > n {
      AnswersErrorSticks(store, b, subs, n, m - 1);
    }
  }

  /** A failed extraction fails with the error of the first submission
      whose answer cannot be displayed. */
  lemma {:induction false} AnswersFirstError(store: Store, b: Block, subs: seq<Submission>, n: nat)
    requires n <= |subs| && Answers(store, b, subs, n).Err?
    ensures exists i ::
      && 0 <= i < n
      && AnswerOf(store, b, subs[i]) == Err(Answers(store, b, subs, n).error)
      && forall j :: 0 <= j < i ==> AnswerOf(store, b, subs[j]).Ok?
  {
    if Answers(store, b, subs, n - 1).Err? {
      AnswersFirstError(store, b, subs, n - 1);
      var i :|
        && 0 <= i < n - 1
        && AnswerOf(store, b, subs[i]) == Err(Answers(store, b, subs, n - 1).error)
        && forall j :: 0 <= j < i ==> AnswerOf(store, b, subs[j]).Ok?;
      assert 0 <= i < n;
    } else {
      assert AnswerOf(store, b, subs[n - 1]) == Err(Answers(store, b, subs, n).error);
    }
  }

  /** The rows kept from the first `n` submissions, in submission order. */
  function RowsOf(store: Store, userId: string, ctx: Context, b: Block, subs: seq<Submission>,
                  answers: seq<string>, matchString: string, n: nat): seq<seq<string>>
    requires n <= |subs| && n <= |answers|
  {
    if n == 0 then []
    else
      RowsOf(store, userId, ctx, b, subs, answers, matchString, n - 1) +
      if Keep(matchString, answers[n - 1]) then [MakeRow(ctx, b, answers[n - 1], UserOf(store, userId, subs[n - 1]))] else []
  }

  /** The rows of the first `n` submissions depend only on the first `n`
      answers. */
  lemma {:induction false} RowsOfPrefix(store: Store, userId: string, ctx: Context, b: Block, subs: seq<Submission>,
                                        a1: seq<string>, a2: seq<string>, matchString: string, n: nat)
    requires n <= |subs| && n <= |a1| && n <= |a2| && a1[..n] == a2[..n]
    ensures RowsOf(store, userId, ctx, b, subs, a1, matchString, n) == RowsOf(store, userId, ctx, b, subs, a2, matchString, n)
  {
    if n > 0 {
      assert a1[n - 1] == a1[..n][n - 1] == a2[..n][n - 1] == a2[n - 1];
      assert a1[..n - 1] == a1[..n][..n - 1];
      assert a2[..n - 1] == a2[..n][..n - 1];
      RowsOfPrefix(store, userId, ctx, b, subs, a1, a2, matchString, n - 1);
    }
  }

  /** The positions, among the first `n`, of the answers the filter keeps,
      in increasing order. */
  function KeptIndices(matchString: string, answers: seq<string>, n: nat): seq<nat>
    requires n <= |answers|
  {
    if n == 0 then []
    else KeptIndices(matchString, answers, n - 1) + if Keep(matchString, answers[n - 1]) then [n - 1] else []
  }

  /** The kept positions are strictly increasing and below `n`; when every
      answer passes the filter, all `n` positions are kept. */
  lemma {:induction false} KeptIndicesOrdered(matchString: string, answers: seq<string>, n: nat)
    requires n <= |answers|
    ensures var idx := KeptIndices(matchString, answers, n);
      && |idx| <= n
      && (forall k :: 0 <= k < |idx| ==> idx[k] < n)
      && (forall k, l :: 0 <= k < l < |idx| ==> idx[k] < idx[l])
      && ((forall i :: 0 <= i < n ==> Keep(matchString, answers[i])) ==> |idx| == n)
  {
    if n > 0 {
      KeptIndicesOrdered(matchString, answers, n - 1);
    }
  }

  /** The kept positions hold exactly the answers that pass the filter. */
  lemma {:induction false} KeptIndicesMembers(matchString: string, answers: seq<string>, n: nat)
    requires n <= |answers|
    ensures forall i :: 0 <= i < n ==> (i in KeptIndices(matchString, answers, n) <==> Keep(matchString, answers[i]))
  {
    if n > 0 {
      KeptIndicesMembers(matchString, answers, n - 1);
      KeptIndicesOrdered(matchString, answers, n - 1);
    }
  }

  /** Row k is built from the k-th kept position. */
  lemma {:induction false} RowsAtKept(store: Store, userId: string, ctx: Context, b: Block, subs: seq<Submission>,
                                      answers: seq<string>, matchString: string, n: nat)
    requires n <= |subs| && n <= |answers|
    ensures var rows := RowsOf(store, userId, ctx, b, subs, answers, matchString, n);
      var idx := KeptIndices(matchString, answers, n);
      && |rows| == |idx|
      && forall k :: 0 <= k < |idx| ==> idx[k] < n && rows[k] == MakeRow(ctx, b, answers[idx[k]], UserOf(store, userId, subs[idx[k]]))
  {
    if n > 0 {
      RowsAtKept(store, userId, ctx, b, subs, answers, matchString, n - 1);
      KeptIndicesOrdered(matchString, answers, n - 1);
    }
  }

  /** The rows are the kept submissions' rows in submission order: row k is
      built from the k-th kept position, the kept positions are strictly
      increasing, and a position is kept iff its answer passes the filter;
      so there are as many rows as kept answers, and the empty match string
      keeps every submission. */
  lemma {:induction false} RowsOfFilter(store: Store, userId: string, ctx: Context, b: Block, subs: seq<Submission>,
                                        answers: seq<string>, matchString: string, n: nat)
    requires n <= |subs| && n <= |answers|
    ensures var rows := RowsOf(store, userId, ctx, b, subs, answers, matchString, n);
      var idx := KeptIndices(matchString, answers, n);
      && |rows| == |idx|
      && (forall k :: 0 <= k < |idx| ==> idx[k] < n && rows[k] == MakeRow(ctx, b, answers[idx[k]], UserOf(store, userId, subs[idx[k]])))
      && (forall k, l :: 0 <= k < l < |idx| ==> idx[k] < idx[l])
      && (forall i :: 0 <= i < n ==> (i in idx <==> Keep(matchString, answers[i])))
    ensures |RowsOf(store, userId, ctx, b, subs, answers, matchString, n)| <= n
    ensures matchString == "" ==> |RowsOf(store, userId, ctx, b, subs, answers, matchString, n)| == n
  {
    RowsAtKept(store, userId, ctx, b, subs, answers, matchString, n);
    KeptIndicesOrdered(matchString, answers, n);
    KeptIndicesMembers(matchString, answers, n);
  }

  /** Every row of a block has exactly seven fields. */
  lemma RowsHaveSevenFields(store: Store, userId: string, ctx: Context, b: Block, subs: seq<Submission>,
                            answers: seq<string>, matchString: string, n: nat)
    requires n <= |subs| && n <= |answers|
    ensures forall row :: row in RowsOf(store, userId, ctx, b, subs, answers, matchString, n) ==> |row| == |Header| == 7
  {
  }

  /** What `_extract_data` returns for one block. */
  function ExtractRows(store: Store, course: string, b: Block, userId: string, matchString: string): Result<seq<seq<string>>>
  {
    match Lineage(b, store.ancestors(b.id))
    case Err(e) => Err(e)
    case Ok(l) =>
      var subs := SubmissionsFor(store, course, b, userId);
      match Answers(store, b, subs, |subs|)
      case Err(e) => Err(e)
      case Ok(a) => Ok(RowsOf(store, userId, ContextOf(l), b, subs, a, matchString, |subs|))
  }

  /** `_extract_data`: the context, then one row per kept submission. */
  method ExtractData(store: Store, course: string, b: Block, userId: string, matchString: string)
    returns (r: Result<seq<seq<string>>>)
    ensures r == ExtractRows(store, course, b, userId, matchString)
  {
    var ctx := GetContext(b, store.ancestors(b.id));
    if ctx.Err? {
      return Err(ctx.error);
    }
    var subs := SubmissionsFor(store, course, b, userId);
    r := SubmissionRows(store, userId, ctx.value, b, subs, matchString);
  }

  /** The submission loop of `_extract_data`: look up each username and
      answer, and keep the row when the answer passes the filter; the first
      answer that fails ends the extraction. */
  method SubmissionRows(store: Store, userId: string, ctx: Context, b: Block, subs: seq<Submission>, matchString: string)
    returns (r: Result<seq<seq<string>>>)
    ensures Answers(store, b, subs, |subs|).Err? ==> r == Err(Answers(store, b, subs, |subs|).error)
    ensures Answers(store, b, subs, |subs|).Ok? ==>
      r == Ok(RowsOf(store, userId, ctx, b, subs, Answers(store, b, subs, |subs|).value, matchString, |subs|))
  {
    var rows: seq<seq<string>> := [];
    ghost var answers: seq<string> := [];
    var i := 0;
    while i < |subs|
      invariant 0 <= i <= |subs|
      invariant Answers(store, b, subs, i) == Ok(answers)
      invariant rows == RowsOf(store, userId, ctx, b, subs, answers, matchString, i)
    {
      var username := UserOf(store, userId, subs[i]);
      var answer := GetAnswer(store, b, subs[i]);
      if answer.Err? {
        AnswersErrorSticks(store, b, subs, i + 1, |subs|);
        return Err(answer.error);
      }
      RowsOfPrefix(store, userId, ctx, b, subs, answers, answers + [answer.value], matchString, i);
      answers := answers + [answer.value];
      if Keep(matchString, answer.value) {
        rows := rows + [MakeRow(ctx, b, answer.value, username)];
      }
      i := i + 1;
    }
    return Ok(rows);
  }

  // ---------------------------------------------------------------------
  // The export (tasks.py:22-92)

  /** The rows of the export, header first, and the preview of them. */
  datatype Report = Report(rows: seq<seq<string>>, displayData: seq<seq<string>>)

  /** `[] if len(rows) == 1 else rows[1:1001]`. */
  function Preview(rows: seq<seq<string>>): (r: seq<seq<string>>)
    requires |rows| >= 1
    ensures |r| == if |rows| - 1 < PreviewLimit then |rows| - 1 else PreviewLimit
    ensures r == rows[1..1 + |r|]
  {
    if |rows| == 1 then [] else rows[1..if |rows| < 1 + PreviewLimit then |rows| else 1 + PreviewLimit]
  }

  /** `get_items(...)[0]`: an empty result is an IndexError, a None result
      the ValueError "Could not find the specified Block ID.". */
  function SourceBlock(store: Store, name: string): (r: Result<Block>)
    ensures r.Err? <==> |store.lookup(name)| == 0 || store.lookup(name)[0].None?
    ensures |store.lookup(name)| == 0 ==> r == Err(NoBlockWithName)
    ensures |store.lookup(name)| > 0 && store.lookup(name)[0].None? ==> r == Err(BlockIdNotFound)
    ensures r.Ok? ==> store.lookup(name)[0] == Some(r.value)
  {
    var found := store.lookup(name);
    if |found| == 0 then Err(NoBlockWithName)
    else if found[0].None? then Err(BlockIdNotFound)
    else Ok(found[0].value)
  }

  /** The block the scan starts from: the source block itself, or the
      course root the ascent reaches, which is the last block of the source
      block's lineage; the ascent fails on a broken link, and on a None from
      `get_parent()` before the root. */
  function StartBlock(store: Store, src: Block, getRoot: bool): (r: Result<Block>)
    ensures !getRoot ==> r == Ok(src)
    ensures getRoot ==>
      (r.Ok? <==> Lineage(src, store.ancestors(src.id)).Ok? && Rooted(Lineage(src, store.ancestors(src.id)).value))
    ensures getRoot && Lineage(src, store.ancestors(src.id)).Err? ==> r == Err(Lineage(src, store.ancestors(src.id)).error)
    ensures getRoot && Lineage(src, store.ancestors(src.id)).Ok? && !Rooted(Lineage(src, store.ancestors(src.id)).value) ==>
      r == Err(NoneParent(Last(Lineage(src, store.ancestors(src.id)).value).parent.value))
    ensures getRoot && r.Ok? ==> r.value.parent.None? && r.value == Last(Lineage(src, store.ancestors(src.id)).value)
  {
    if !getRoot then Ok(src)
    else
      match Lineage(src, store.ancestors(src.id))
      case Err(e) => Err(e)
      case Ok(l) => if Last(l).parent.None? then Ok(Last(l)) else Err(NoneParent(Last(l).parent.value))
  }

  /** `_extract_data` for the export's course, user and match string. */
  function Extractor(store: Store, course: string, userId: string, matchString: string)
    : Block -> Result<seq<seq<string>>>
  {
    b => ExtractRows(store, course, b, userId, matchString)
  }

  /** The rows of the first `n` collected blocks, concatenated in order. */
  function BlockRows(extract: Block -> Result<seq<seq<string>>>, blocks: seq<Block>, n: nat): Result<seq<seq<string>>>
    requires n <= |blocks|
  {
    if n == 0 then Ok([])
    else
      match BlockRows(extract, blocks, n - 1)
      case Err(e) => Err(e)
      case Ok(rows) =>
        match extract(blocks[n - 1])
        case Err(e) => Err(e)
        case Ok(more) => Ok(rows + more)
  }

  /** The first block whose extraction fails ends the export. */
  lemma {:induction false} BlockRowsErrorSticks(extract: Block -> Result<seq<seq<string>>>, blocks: seq<Block>, n: nat, m: nat)
    requires n <= m <= |blocks| && BlockRows(extract, blocks, n).Err?
    ensures BlockRows(extract, blocks, m) == BlockRows(extract, blocks, n)
    decreases m
  {
    if m > n {
      BlockRowsErrorSticks(extract, blocks, n, m - 1);
    }
  }

  /** Every row of one block has the seven columns of the header. */
  lemma ExtractRowsSevenFields(store: Store, course: string, b: Block, userId: string, matchString: string)
    ensures ExtractRows(store, course, b, userId, matchString).Ok? ==>
      forall row :: row in ExtractRows(store, course, b, userId, matchString).value ==> |row| == 7
  {
    if ExtractRows(store, course, b, userId, matchString).Ok? {
      var l := Lineage(b, store.ancestors(b.id)).value;
      var subs := SubmissionsFor(store, course, b, userId);
      var a := Answers(store, b, subs, |subs|).value;
      RowsHaveSevenFields(store, userId, ContextOf(l), b, subs, a, matchString, |subs|);
    }
  }

  /** When every block's rows have seven fields, so do all the data rows. */
  lemma {:induction false} BlockRowsSevenFields(extract: Block -> Result<seq<seq<string>>>, blocks: seq<Block>, n: nat)
    requires n <= |blocks| && BlockRows(extract, blocks, n).Ok?
    requires forall i :: 0 <= i < |blocks| && extract(blocks[i]).Ok? ==> forall row :: row in extract(blocks[i]).value ==> |row| == 7
    ensures forall row :: row in BlockRows(extract, blocks, n).value ==> |row| == 7
  {
    if n > 0 {
      BlockRowsSevenFields(extract, blocks, n - 1);
    }
  }

  /** What `export_data` returns (the file name, the timing and the stored
      report aside). */
  function Export(store: Store, course: string, name: string, blockTypes: seq<string>, userId: string,
                  matchString: string, getRoot: bool): Result<Report>
  {
    match SourceBlock(store, name)
    case Err(e) => Err(e)
    case Ok(src) =>
      match StartBlock(store, src, getRoot)
      case Err(e) => Err(e)
      case Ok(root) =>
        match SelectTypes(blockTypes)
        case Err(e) => Err(e)
        case Ok(types) =>
          var blocks := Scan(store.reg, types, Node(root.id, root, store.resolve(root)));
          match BlockRows(Extractor(store, course, userId, matchString), blocks, |blocks|)
          case Err(e) => Err(e)
          case Ok(rows) => Ok(Report([Header] + rows, Preview([Header] + rows)))
  }

  /** One more block: its rows are appended, or its error ends the export. */
  lemma BlockRowsNext(extract: Block -> Result<seq<seq<string>>>, blocks: seq<Block>, i: nat, rows: seq<seq<string>>)
    requires i < |blocks| && BlockRows(extract, blocks, i) == Ok(rows)
    ensures BlockRows(extract, blocks, i + 1) ==
      if extract(blocks[i]).Err? then Err(extract(blocks[i]).error) else Ok(rows + extract(blocks[i]).value)
  {
  }

  /** One pass of the loop of `export_data`: `rows += _extract_data(...)`;
      an error raised here is the outcome of the whole loop. */
  method AppendBlockRows(store: Store, course: string, blocks: seq<Block>, userId: string, matchString: string,
                         i: nat, rows: seq<seq<string>>) returns (r: Result<seq<seq<string>>>)
    requires i < |blocks| && BlockRows(Extractor(store, course, userId, matchString), blocks, i) == Ok(rows)
    ensures r.Ok? ==> r == BlockRows(Extractor(store, course, userId, matchString), blocks, i + 1)
    ensures r.Err? ==> r == BlockRows(Extractor(store, course, userId, matchString), blocks, |blocks|)
  {
    ghost var extract := Extractor(store, course, userId, matchString);
    var more := ExtractData(store, course, blocks[i], userId, matchString);
    assert extract(blocks[i]) == more;
    BlockRowsNext(extract, blocks, i, rows);
    if more.Err? {
      BlockRowsErrorSticks(extract, blocks, i + 1, |blocks|);
      return Err(more.error);
    }
    return Ok(rows + more.value);
  }

  /** The loop of `export_data` over the collected blocks. */
  method CollectRows(store: Store, course: string, blocks: seq<Block>, userId: string, matchString: string)
    returns (r: Result<seq<seq<string>>>)
    ensures r == BlockRows(Extractor(store, course, userId, matchString), blocks, |blocks|)
  {
    r := Ok([]);
    for i := 0 to |blocks|
      invariant r == BlockRows(Extractor(store, course, userId, matchString), blocks, i)
      invariant r.Ok?
    {
      r := AppendBlockRows(store, course, blocks, userId, matchString, i, r.value);
      if r.Err? {
        return;
      }
    }
  }

  /** The start of `export_data`: the source block, then the course root
      when asked for. */
  method StartOf(store: Store, name: string, getRoot: bool) returns (r: Result<Block>)
    ensures r == match SourceBlock(store, name) case Err(e) => Err(e) case Ok(src) => StartBlock(store, src, getRoot)
  {
    var found := store.lookup(name);
    if |found| == 0 {
      return Err(NoBlockWithName);
    }
    if found[0].None? {
      return Err(BlockIdNotFound);
    }
    var src := found[0].value;
    if !getRoot {
      return Ok(src);
    }
    r := FindRoot(src, store.ancestors(src.id));
  }

  /** `export_data`. */
  method ExportData(store: Store, course: string, name: string, blockTypes: seq<string>, userId: string,
                    matchString: string, getRoot: bool) returns (r: Result<Report>)
    ensures r == Export(store, course, name, blockTypes, userId, matchString, getRoot)
  {
    var root := StartOf(store, name, getRoot);
    if root.Err? {
      return Err(root.error);
    }
    var types := SelectTypes(blockTypes);
    if types.Err? {
      return Err(types.error);
    }
    var collector := new Collector(store.reg, types.value);
    var top := Node(root.value.id, root.value, store.resolve(root.value));
    collector.ScanForBlocks(top);
    var blocks := collector.blocksToInclude;
    assert blocks == Scan(store.reg, types.value, top);
    var rows := CollectRows(store, course, blocks, userId, matchString);
    if rows.Err? {
      return Err(rows.error);
    }
    var all := [Header] + rows.value;
    return Ok(Report(all, Preview(all)));
  }

  /** The shape of a successful export: the header row first, then the rows
      of the collected blocks in scan order, every row with seven fields; the
      preview leaves out the header and holds at most 1000 rows. */
  lemma ExportShape(store: Store, course: string, name: string, blockTypes: seq<string>, userId: string,
                    matchString: string, getRoot: bool)
    requires Export(store, course, name, blockTypes, userId, matchString, getRoot).Ok?
    ensures var rep := Export(store, course, name, blockTypes, userId, matchString, getRoot).value;
      && |rep.rows| >= 1 && rep.rows[0] == Header
      && (forall i :: 0 <= i < |rep.rows| ==> |rep.rows[i]| == 7)
      && |rep.displayData| <= PreviewLimit
      && (|rep.rows| == 1 ==> rep.displayData == [])
      && rep.displayData == rep.rows[1..1 + |rep.displayData|]
  {
    var src := SourceBlock(store, name).value;
    var root := StartBlock(store, src, getRoot).value;
    var types := SelectTypes(blockTypes).value;
    var blocks := Scan(store.reg, types, Node(root.id, root, store.resolve(root)));
    var extract := Extractor(store, course, userId, matchString);
    forall i | 0 <= i < |blocks| && extract(blocks[i]).Ok?
      ensures forall row :: row in extract(blocks[i]).value ==> |row| == 7
    {
      ExtractRowsSevenFields(store, course, blocks[i], userId, matchString);
    }
    BlockRowsSevenFields(extract, blocks, |blocks|);
    var rows := [Header] + BlockRows(extract, blocks, |blocks|).value;
    forall i | 0 <= i < |rows| ensures |rows[i]| == 7 {
      if i > 0 {
        assert rows[i] in BlockRows(extract, blocks, |blocks|).value;
      }
    }
  }

  /** The export succeeds iff every collected block's extraction does. */
  lemma {:induction false} BlockRowsOk(extract: Block -> Result<seq<seq<string>>>, blocks: seq<Block>, n: nat)
    requires n <= |blocks|
    ensures BlockRows(extract, blocks, n).Ok? <==> forall i :: 0 <= i < n ==> extract(blocks[i]).Ok?
  {
    if n > 0 {
      BlockRowsOk(extract, blocks, n - 1);
    }
  }

  /** The data rows are the collected blocks' rows in scan order: those of
      the first `m` blocks are a prefix of those of the first `n`. */
  lemma {:induction false} BlockRowsPrefix(extract: Block -> Result<seq<seq<string>>>, blocks: seq<Block>, m: nat, n: nat)
    requires m <= n <= |blocks| && BlockRows(extract, blocks, n).Ok?
    ensures BlockRows(extract, blocks, m).Ok?
    ensures BlockRows(extract, blocks, m).value <= BlockRows(extract, blocks, n).value
    decreases n
  {
    if m < n {
      BlockRowsPrefix(extract, blocks, m, n - 1);
    }
  }

  /** A failed source lookup is reported, before anything else is done. */
  lemma ExportLookupErrors(store: Store, course: string, name: string, blockTypes: seq<string>, userId: string,
                           matchString: string, getRoot: bool)
    ensures |store.lookup(name)| == 0 ==>
      Export(store, course, name, blockTypes, userId, matchString, getRoot) == Err(NoBlockWithName)
    ensures |store.lookup(name)| > 0 && store.lookup(name)[0].None? ==>
      Export(store, course, name, blockTypes, userId, matchString, getRoot) == Err(BlockIdNotFound)
    ensures SourceBlock(store, name).Ok? && SelectTypes(blockTypes).Err? && StartBlock(store, SourceBlock(store, name).value, getRoot).Ok? ==>
      Export(store, course, name, blockTypes, userId, matchString, getRoot) == Err(SelectTypes(blockTypes).error)
  {
  }

  /** The filter at work: of the answers "cat" and "dog", the match string
      "a" keeps the row of "cat" only. */
  lemma CatNotDog(store: Store, userId: string, ctx: Context, b: Block, s1: Submission, s2: Submission)
    ensures RowsOf(store, userId, ctx, b, [s1, s2], ["cat", "dog"], "a", 2) == [MakeRow(ctx, b, "cat", UserOf(store, userId, s1))]
  {
    assert Lower("a") == "a";
    assert Lower("cat") == "cat";
    assert Lower("dog") == "dog";
    assert "cat"[1..] == "at" && "at"[..1] == "a";
    assert Keep("a", "cat");
    assert "dog"[1..] == "og" && "og"[1..] == "g";
    assert "dog"[..1] != "a" && "og"[..1] != "a" && "g"[..1] != "a";
    assert !Contains("a", "g");
    assert !Contains("a", "og");
    assert !Keep("a", "dog");
    var subs, answers := [s1, s2], ["cat", "dog"];
    assert answers[0] == "cat" && answers[1] == "dog" && subs[0] == s1;
    assert RowsOf(store, userId, ctx, b, subs, answers, "a", 0) == [];
    assert RowsOf(store, userId, ctx, b, subs, answers, "a", 1) == [MakeRow(ctx, b, "cat", UserOf(store, userId, s1))];
  }
}
