/** `MessageParentMixin.get_message_content` (problem_builder/mixins.py:107-120):
    the content of the first message child of a requested type, through the
    runtime's link-rewriting hook when it has one, else an optional default. */
module Messages {
  import opened Keys
  import opened Content

  /** The runtime as the message lookup uses it: the class registry,
      `get_block`, and the optional `replace_jump_to_id_urls` hook. */
  datatype Runtime = Runtime(reg: Registry, blocks: map<Key, Block>, rewrite: Option<string -> string>)

  /** The content after the hook, or unchanged when there is no hook. */
  function Rewritten(rt: Runtime, content: string): string
  {
    if rt.rewrite.Some? then rt.rewrite.value(content) else content
  }

  /** Child `i` is a message child (by its block type) that resolves to a
      message of the requested type. */
  predicate MatchAt(rt: Runtime, children: seq<Key>, kind: string, i: int)
    requires 0 <= i < |children|
  {
    IsA(rt.reg, children[i], MentoringMessageBlock) && children[i] in rt.blocks &&
    rt.blocks[children[i]].messageType == kind
  }

  /** Child `i` is passed over by the search: not a message child, or a
      message child that resolves to another type. */
  predicate PassedOver(rt: Runtime, children: seq<Key>, kind: string, i: int)
    requires 0 <= i < |children|
  {
    IsA(rt.reg, children[i], MentoringMessageBlock) ==>
      children[i] in rt.blocks && rt.blocks[children[i]].messageType != kind
  }

  /** The search over the children, in order: the raw content of the first
      matching message child; a message child that the runtime cannot
      resolve before that raises. */
  function Search(rt: Runtime, children: seq<Key>, kind: string): Result<Option<string>>
  {
    if children == [] then Ok(None)
    else
      var id := children[0];
      if IsA(rt.reg, id, MentoringMessageBlock) && id !in rt.blocks then Err(ItemNotFound(id))
      else if IsA(rt.reg, id, MentoringMessageBlock) && rt.blocks[id].messageType == kind then Ok(Some(rt.blocks[id].content))
      else Search(rt, children[1..], kind)
  }

  /** What `get_message_content(kind, or_default)` returns: `Ok(None)` is
      Python's None; a missing entry in the default table is a KeyError. */
  function MessageContent(rt: Runtime, children: seq<Key>, kind: string, orDefault: bool,
                          defaults: map<string, string>): Result<Option<string>>
  {
    match Search(rt, children, kind)
    case Err(e) => Err(e)
    case Ok(Some(c)) => Ok(Some(Rewritten(rt, c)))
    case Ok(None) =>
      if !orDefault then Ok(None)
      else if kind in defaults then Ok(Some("<p>" + defaults[kind] + "</p>"))
      else Err(UnknownMessageType(kind))
  }

  /** `get_message_content`: a search loop that returns at the first match. */
  method GetMessageContent(rt: Runtime, children: seq<Key>, kind: string, orDefault: bool,
                           defaults: map<string, string>) returns (r: Result<Option<string>>)
    ensures r == MessageContent(rt, children, kind, orDefault, defaults)
  {
    var i := 0;
    while i < |children|
      invariant 0 <= i <= |children|
      invariant Search(rt, children, kind) == Search(rt, children[i..], kind)
    {
      var id := children[i];
      assert children[i..][1..] == children[i + 1..];
      if IsA(rt.reg, id, MentoringMessageBlock) {
        if id !in rt.blocks {
          return Err(ItemNotFound(id));
        }
        var child := rt.blocks[id];
        if child.messageType == kind {
          var content := child.content;
          if rt.rewrite.Some? {
            content := rt.rewrite.value(content);
          }
          return Ok(Some(content));
        }
      }
      i := i + 1;
    }
    if orDefault {
      if kind !in defaults {
        return Err(UnknownMessageType(kind));
      }
      return Ok(Some("<p>" + defaults[kind] + "</p>"));
    }
    return Ok(None);
  }

  /** The search finds child `i` exactly when `i` matches and every child
      before it is passed over: first match wins, in child order. */
  lemma {:induction false} SearchFinds(rt: Runtime, children: seq<Key>, kind: string, i: nat)
    requires i < |children|
    ensures (MatchAt(rt, children, kind, i) && forall j :: 0 <= j < i ==> PassedOver(rt, children, kind, j)) ==>
      Search(rt, children, kind) == Ok(Some(rt.blocks[children[i]].content))
  {
    if i > 0 && MatchAt(rt, children, kind, i) && forall j :: 0 <= j < i ==> PassedOver(rt, children, kind, j) {
      assert PassedOver(rt, children, kind, 0);
      assert MatchAt(rt, children[1..], kind, i - 1);
      forall j | 0 <= j < i - 1 ensures PassedOver(rt, children[1..], kind, j) {
        assert PassedOver(rt, children, kind, j + 1);
      }
      SearchFinds(rt, children[1..], kind, i - 1);
    }
  }

  /** A content found by the search comes from a matching child preceded
      only by passed-over children. */
  lemma {:induction false} SearchFound(rt: Runtime, children: seq<Key>, kind: string)
    requires Search(rt, children, kind).Ok? && Search(rt, children, kind).value.Some?
    ensures exists i ::
              && 0 <= i < |children| && MatchAt(rt, children, kind, i)
              && Search(rt, children, kind).value.value == rt.blocks[children[i]].content
              && forall j :: 0 <= j < i ==> PassedOver(rt, children, kind, j)
  {
    var id := children[0];
    if !(IsA(rt.reg, id, MentoringMessageBlock) && rt.blocks[id].messageType == kind) {
      SearchFound(rt, children[1..], kind);
      var i :| 0 <= i < |children[1..]| && MatchAt(rt, children[1..], kind, i) &&
        Search(rt, children[1..], kind).value.value == rt.blocks[children[1..][i]].content &&
        forall j :: 0 <= j < i ==> PassedOver(rt, children[1..], kind, j);
      assert MatchAt(rt, children, kind, i + 1);
      forall j | 0 <= j < i + 1 ensures PassedOver(rt, children, kind, j) {
        if j > 0 {
          assert PassedOver(rt, children[1..], kind, j - 1);
        }
      }
    } else {
      assert MatchAt(rt, children, kind, 0);
    }
  }

  /** The search finds nothing exactly when every child is passed over. */
  lemma {:induction false} SearchNone(rt: Runtime, children: seq<Key>, kind: string)
    ensures Search(rt, children, kind) == Ok(None) <==>
      forall j :: 0 <= j < |children| ==> PassedOver(rt, children, kind, j)
  {
    if children != [] {
      SearchNone(rt, children[1..], kind);
      if forall j :: 0 <= j < |children| ==> PassedOver(rt, children, kind, j) {
        assert PassedOver(rt, children, kind, 0);
        forall j | 0 <= j < |children[1..]| ensures PassedOver(rt, children[1..], kind, j) {
          assert PassedOver(rt, children, kind, j + 1);
        }
      }
      if Search(rt, children, kind) == Ok(None) {
        forall j | 0 <= j < |children| ensures PassedOver(rt, children, kind, j) {
          if j > 0 {
            assert PassedOver(rt, children[1..], kind, j - 1);
          }
        }
      }
    }
  }

  /** The three outcomes: a found message goes through the hook (or is
      returned as it is without one); with no match the default is wrapped in
      a paragraph when asked for, and None is returned otherwise. */
  lemma MessageContentCases(rt: Runtime, children: seq<Key>, kind: string, orDefault: bool,
                            defaults: map<string, string>)
    ensures Search(rt, children, kind).Ok? && Search(rt, children, kind).value.Some? ==>
      MessageContent(rt, children, kind, orDefault, defaults) ==
        Ok(Some(if rt.rewrite.Some? then rt.rewrite.value(Search(rt, children, kind).value.value)
                else Search(rt, children, kind).value.value))
    ensures Search(rt, children, kind) == Ok(None) && orDefault && kind in defaults ==>
      MessageContent(rt, children, kind, orDefault, defaults) == Ok(Some("<p>" + defaults[kind] + "</p>"))
    ensures Search(rt, children, kind) == Ok(None) && !orDefault ==>
      MessageContent(rt, children, kind, orDefault, defaults) == Ok(None)
  {
  }

  /** The unit test of the hook: one message child of type "bogus" whose
      content is "test", and a hook that turns "test" into "replaced-url". */
  lemma JumpToIdUrlsRewritten(reg: Registry, dummy: Key, message: Block)
    requires IsA(reg, dummy, MentoringMessageBlock)
    requires message.messageType == "bogus" && message.content == "test"
    ensures MessageContent(Runtime(reg, map[dummy := message],
                                   Some(x => if x == "test" then "replaced-url" else x)),
                           [dummy], "bogus", false, map[]) == Ok(Some("replaced-url"))
  {
  }
}
