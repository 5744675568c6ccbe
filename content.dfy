/** The content tree as the problem-builder code sees it: blocks, the class
    each block type loads as, the tree of resolved children, field values and
    the errors the code raises. */
module Content {
  import opened Keys

  datatype Option<T> = None | Some(value: T)

  /** The exceptions the modelled code raises or lets escape. */
  datatype Error =
    | ItemNotFound(key: Key)            // runtime.get_block / modulestore().get_item found nothing
    | NotInParent(key: Key)             // ValueError: a step missing from its parent's step list
    | UnknownMessageType(kind: string)  // KeyError in the default-message table
    | BlockIdNotFound                   // ValueError("Could not find the specified Block ID.")
    | NoBlockWithName                   // IndexError: get_items(...)[0] on an empty result
    | UnknownBlockType(className: string) // KeyError in the export's type_map
    | NoneParent(key: Key)              // AttributeError: `.parent` read on the None that get_parent() returned for this parent key
    | MalformedResults                  // TypeError, ValueError or AttributeError: `student_results` not a list of (name, dict) pairs

  datatype Result<T> = Ok(value: T) | Err(error: Error)

  /** A JSON-like field value. */
  datatype Json =
    | Null
    | Bool(b: bool)
    | Num(n: int)
    | Str(s: string)
    | Arr(items: seq<Json>)
    | Obj(members: map<string, Json>)

  /** The XBlock field scopes (`Scope.*`). */
  datatype Scope = Content | Settings | Children | Parent | UserState | UserInfo | Preferences | UserStateSummary

  /** The per-field transforms a block class registers in `transforms()`. */
  datatype Transform = StripTips

  /** What a block type loads as: the names of its class and of all the
      classes it derives from, and the class attributes the code consults. */
  datatype BlockClass = BlockClass(
    lineage: set<string>,             // class names, for isinstance / child_isinstance
    hasChildren: bool,                // has_children
    userStateFields: set<string>,     // USER_STATE_FIELDS
    transforms: map<string, Transform>)

  /** `runtime.load_block_type`: the class of each block type. */
  type Registry = string -> BlockClass

  const QuestionMixin := "QuestionMixin"
  const MentoringMessageBlock := "MentoringMessageBlock"
  const StudentViewUserStateMixin := "StudentViewUserStateMixin"

  /** A block's own data. */
  datatype Block = Block(
    id: Key,
    displayName: string,              // display_name (display_name_with_default for structural blocks)
    question: string,                 // question text of a question block
    messageType: string,              // type of a message block
    content: string,                  // content of a message block or of a choice
    value: string,                    // stored value of a choice
    parent: Option<Key>,              // parent (None for the course root)
    children: seq<Key>,               // children (ids, in authoring order)
    fields: map<string, FieldValue>)  // fields, by name

  datatype FieldValue = FieldValue(scope: Scope, value: Json)

  /** A block with its children resolved through the runtime, recursively.
      `Missing(id)` is a child id the runtime could not resolve. */
  datatype Tree =
    | Missing(id: Key)
    | Node(id: Key, block: Block, kids: seq<Tree>)

  /** `child_isinstance(self, child_id, cls)`: decided from the child id's
      block type, without loading the child. */
  predicate IsA(reg: Registry, k: Key, cls: string)
  {
    cls in reg(k.blockType).lineage
  }

  /** `isinstance(block, classes)` for a tuple of classes. */
  predicate InstanceOfAny(reg: Registry, b: Block, classes: set<string>)
  {
    reg(b.id.blockType).lineage * classes != {}
  }
}
