/**
 * The Schematyc editor's node-creation dictionary (CNodesDictionary) and the
 * creator that fills it from menu options (CNodesDictionaryCreator).
 *
 * Category and node entries are heap objects in the editor; here they live
 * in two arenas owned by the dictionary, and a pointer to an entry is its
 * arena index (`None` is nullptr).  Entries are never removed, so an index
 * stays valid, and a parent is always created before its children.
 */
module NodesDictionary {
  import opened Common
  import MenuLabels

  /** The identity of the menu command a node entry executes. */
  type CommandId = nat

  datatype ColumnValue = NoValue | Text(text: string) | Identifier(command: CommandId)

  /** Column indices of the dictionary, in the order of its attribute table. */
  const ColumnName: int := 0
  const ColumnFilter: int := 1
  const ColumnIdentifier: int := 2
  const ColumnCount: int := 3

  datatype AttributeType = StringAttribute | IntAttribute
  datatype Visibility = Visible | AlwaysHidden
  datatype ColumnAttribute = ColumnAttribute(name: string, attributeType: AttributeType, visibility: Visibility)

  /** CNodesDictionary::s_columnAttributes. */
  const ColumnAttributes: seq<ColumnAttribute> := [
    ColumnAttribute("Name", StringAttribute, Visible),
    ColumnAttribute("_filter_string_", StringAttribute, AlwaysHidden),
    ColumnAttribute("_identifier_", IntAttribute, AlwaysHidden)
  ]

  /** A pointer to a dictionary entry: a category or a node, by arena index. */
  datatype Entry = CategoryRef(category: nat) | NodeRef(node: nat)

  datatype CategoryEntry = CategoryEntry(
    name: string,
    fullName: string,
    parent: Option<nat>,
    categories: seq<nat>,
    nodes: seq<nat>)
  {
    /** CNodesDictionaryCategoryEntry::GetColumnValue: a category has no identifier. */
    function GetColumnValue(columnIndex: int): ColumnValue
    {
      if columnIndex == ColumnName then Text(name)
      else if columnIndex == ColumnFilter then Text(fullName)
      else NoValue
    }

    /** CNodesDictionaryCategoryEntry::GetChildEntry: sub-categories first, then nodes. */
    function GetChildEntry(index: int): (r: Option<Entry>)
      requires Int32Min <= index < Int32Limit
      ensures 0 <= index < |categories| ==> r == Some(CategoryRef(categories[index]))
      ensures |categories| + |nodes| <= Int32Limit ==> r == ChildAt(categories, nodes, index)
    {
      FlatEntry(index, categories, nodes)
    }
  }

  datatype NodeEntry = NodeEntry(name: string, fullName: string, command: CommandId, parent: Option<nat>)
  {
    /** CNodesDictionaryNodeEntry::GetColumnValue. */
    function GetColumnValue(columnIndex: int): ColumnValue
    {
      if columnIndex == ColumnName then Text(name)
      else if columnIndex == ColumnFilter then Text(fullName)
      else if columnIndex == ColumnIdentifier then Identifier(command)
      else NoValue
    }
  }

  // ---------------------------------------------------------------------
  // Flat indexing of one level (GetEntry / GetChildEntry)
  // ---------------------------------------------------------------------

  const Int32Min: int := -0x8000_0000
  const Int32Limit: int := 0x8000_0000
  const SizeLimit: int := 0x1_0000_0000_0000_0000

  /** An int32 converted to a 64-bit size_t. */
  function ToSize(i: int): nat
  {
    i % SizeLimit
  }

  /** A size_t narrowed to int32 (two's complement truncation). */
  function ToInt32(u: int): int
  {
    var w := u % 0x1_0000_0000;
    if w < Int32Limit then w else w - 0x1_0000_0000
  }

  /** The intended meaning of a flat index: categories first, then nodes, else nothing. */
  function ChildAt(categories: seq<nat>, nodes: seq<nat>, index: int): Option<Entry>
  {
    if 0 <= index < |categories| then Some(CategoryRef(categories[index]))
    else if |categories| <= index < |categories| + |nodes| then Some(NodeRef(nodes[index - |categories|]))
    else None
  }

  /**
   * The lookup as the editor computes it: `index < size()` compares after
   * converting the int32 index to size_t, and `index - size()` is a size_t
   * difference narrowed back to int32.  For any level holding at most 2^31
   * entries this is exactly ChildAt, negative indices included.
   */
  function FlatEntry(index: int, categories: seq<nat>, nodes: seq<nat>): (r: Option<Entry>)
    requires Int32Min <= index < Int32Limit
    ensures 0 <= index < |categories| ==> r == Some(CategoryRef(categories[index]))
    ensures |categories| + |nodes| <= Int32Limit ==> r == ChildAt(categories, nodes, index)
  {
    if ToSize(index) < |categories| then
      Some(CategoryRef(categories[ToSize(index)]))
    else
      var nodeIndex := ToInt32((ToSize(index) - |categories|) % SizeLimit);
      if ToSize(nodeIndex) < |nodes| then Some(NodeRef(nodes[ToSize(nodeIndex)])) else None
  }

  // ---------------------------------------------------------------------
  // Column attributes
  // ---------------------------------------------------------------------

  /**
   * CNodesDictionary::GetColumnAttribute as written: the guard
   * `index < eColumn_COUNT` is a signed comparison, so a negative index
   * passes and the returned slot lies before the table.  The result is the
   * slot the returned pointer designates.
   */
  function GetColumnAttributeAsWritten(index: int): (slot: Option<int>)
    ensures slot.Some? <==> index < ColumnCount
    ensures slot.Some? ==> slot.value == index
  {
    if index < ColumnCount then Some(index) else None
  }

  /** Index -1 passes the guard and designates no attribute of the table. */
  lemma NegativeColumnEscapesTable()
    ensures GetColumnAttributeAsWritten(-1) == Some(-1)
    ensures !(0 <= -1 < |ColumnAttributes|)
  {
  }

  /** GetColumnAttribute with the lower bound the table needs. */
  function GetColumnAttribute(index: int): (r: Option<ColumnAttribute>)
    ensures r.Some? <==> 0 <= index < ColumnCount
    ensures r.Some? ==> r.value == ColumnAttributes[index]
    ensures index == ColumnName ==> r == Some(ColumnAttribute("Name", StringAttribute, Visible))
  {
    if 0 <= index < ColumnCount then Some(ColumnAttributes[index]) else None
  }

  // ---------------------------------------------------------------------
  // The dictionary as a value: roots plus the two arenas
  // ---------------------------------------------------------------------

  datatype Forest = Forest(
    categories: seq<nat>,
    nodes: seq<nat>,
    categoryEntries: seq<CategoryEntry>,
    nodeEntries: seq<NodeEntry>)

  ghost predicate ValidParent(f: Forest, parent: Option<nat>)
  {
    parent.None? || parent.value < |f.categoryEntries|
  }

  /** The category list a category with this parent belongs to (m_categories at the root). */
  function Siblings(f: Forest, parent: Option<nat>): seq<nat>
  {
    match parent
    case None => f.categories
    case Some(p) => if p < |f.categoryEntries| then f.categoryEntries[p].categories else []
  }

  /** The node list of a category, or the root node list. */
  function NodeList(f: Forest, parent: Option<nat>): seq<nat>
  {
    match parent
    case None => f.nodes
    case Some(p) => if p < |f.categoryEntries| then f.categoryEntries[p].nodes else []
  }

  ghost predicate CategoriesUnder(f: Forest, list: seq<nat>, parent: Option<nat>)
  {
    forall i :: 0 <= i < |list| ==>
      list[i] < |f.categoryEntries| && f.categoryEntries[list[i]].parent == parent
  }

  ghost predicate NodesUnder(f: Forest, list: seq<nat>, parent: Option<nat>)
  {
    forall i :: 0 <= i < |list| ==>
      list[i] < |f.nodeEntries| && f.nodeEntries[list[i]].parent == parent
  }

  /** No two categories of one list carry the same name. */
  ghost predicate UniqueNames(f: Forest, list: seq<nat>)
  {
    forall i, j :: 0 <= i < j < |list| && list[i] < |f.categoryEntries| && list[j] < |f.categoryEntries| ==>
      f.categoryEntries[list[i]].name != f.categoryEntries[list[j]].name
  }

  /** Every list entry points back at the category holding it. */
  ghost predicate Linked(f: Forest)
  {
    && CategoriesUnder(f, f.categories, None)
    && NodesUnder(f, f.nodes, None)
    && (forall c :: 0 <= c < |f.categoryEntries| ==>
          && CategoriesUnder(f, f.categoryEntries[c].categories, Some(c))
          && NodesUnder(f, f.categoryEntries[c].nodes, Some(c)))
  }

  /** A category is created after its parent. */
  ghost predicate ParentsFirst(f: Forest)
  {
    forall c :: 0 <= c < |f.categoryEntries| ==>
      f.categoryEntries[c].parent.None? || f.categoryEntries[c].parent.value < c
  }

  /** Every entry is listed under its parent. */
  ghost predicate Listed(f: Forest)
  {
    && (forall c :: 0 <= c < |f.categoryEntries| ==> c in Siblings(f, f.categoryEntries[c].parent))
    && (forall k :: 0 <= k < |f.nodeEntries| ==>
          ValidParent(f, f.nodeEntries[k].parent) && k in NodeList(f, f.nodeEntries[k].parent))
  }

  /** Sibling category names are unique at the root and inside every category. */
  ghost predicate SiblingNamesUnique(f: Forest)
  {
    && UniqueNames(f, f.categories)
    && (forall c :: 0 <= c < |f.categoryEntries| ==> UniqueNames(f, f.categoryEntries[c].categories))
  }

  ghost predicate WellFormed(f: Forest)
  {
    Linked(f) && ParentsFirst(f) && Listed(f) && SiblingNamesUnique(f)
  }

  /** The names from the root down to category `c`. */
  ghost function PathOf(f: Forest, c: nat): seq<string>
    decreases c
  {
    if c >= |f.categoryEntries| then []
    else match f.categoryEntries[c].parent
      case Some(p) => if p < c then PathOf(f, p) + [f.categoryEntries[c].name] else [f.categoryEntries[c].name]
      case None => [f.categoryEntries[c].name]
  }

  ghost function CategoryPath(f: Forest, parent: Option<nat>): seq<string>
  {
    match parent
    case None => []
    case Some(c) => PathOf(f, c)
  }

  /** `g` only adds to `f`: existing entries keep their names and parents, and lists only grow. */
  ghost predicate Grows(f: Forest, g: Forest)
  {
    && |f.categoryEntries| <= |g.categoryEntries|
    && |f.nodeEntries| <= |g.nodeEntries|
    && f.categories <= g.categories
    && f.nodes <= g.nodes
    && (forall c :: 0 <= c < |f.categoryEntries| ==> Keeps(f.categoryEntries[c], g.categoryEntries[c]))
    && g.nodeEntries[..|f.nodeEntries|] == f.nodeEntries
  }

  ghost predicate Keeps(before: CategoryEntry, after: CategoryEntry)
  {
    && after.name == before.name
    && after.fullName == before.fullName
    && after.parent == before.parent
    && before.categories <= after.categories
    && before.nodes <= after.nodes
  }

  /**
   * The node list of `parent` gained node `id` at its end, and every other
   * node list (the root list and those of old and new categories) is as it was.
   */
  ghost predicate NodeListsFramed(f: Forest, g: Forest, parent: Option<nat>, id: nat)
  {
    && NodeList(g, parent) == NodeList(f, parent) + [id]
    && forall p: Option<nat> :: p != parent ==> NodeList(g, p) == NodeList(f, p)
  }

  /**
   * `g` is `f` with one more node entry, with the given names and command,
   * placed last in the node list of the category whose path is `path` (the
   * root node list when `path` is empty); no other node list changes.
   */
  ghost predicate NodePlaced(f: Forest, g: Forest, name: string, fullName: string, command: CommandId, path: seq<string>)
  {
    && |g.nodeEntries| == |f.nodeEntries| + 1
    && var node := g.nodeEntries[|f.nodeEntries|];
    && node.name == name
    && node.fullName == fullName
    && node.command == command
    && ValidParent(g, node.parent)
    && CategoryPath(g, node.parent) == path
    && NodeListsFramed(f, g, node.parent, |f.nodeEntries|)
  }

  /**
   * The categories `g` adds to `f` form one chain: each is parented by the
   * one created before it, the first hangs under an existing category or the
   * root, all their paths are prefixes of `path`, and the last one holds the
   * new node.
   */
  ghost predicate FreshChain(f: Forest, g: Forest, path: seq<string>)
  {
    var n, m := |f.categoryEntries|, |g.categoryEntries|;
    && n <= m <= n + |path|
    && (forall c :: n <= c < m ==> PathOf(g, c) <= path)
    && (forall c :: n < c < m ==> g.categoryEntries[c].parent == Some(c - 1))
    && (n < m ==> g.categoryEntries[n].parent.None? || g.categoryEntries[n].parent.value < n)
    && (n < m && |g.nodeEntries| > |f.nodeEntries| ==> g.nodeEntries[|f.nodeEntries|].parent == Some(m - 1))
  }

  const EmptyForest: Forest := Forest([], [], [], [])

  // ---------------------------------------------------------------------
  // Path lemmas
  // ---------------------------------------------------------------------

  lemma {:induction false} PathOfLength(f: Forest, c: nat)
    requires c < |f.categoryEntries|
    ensures |PathOf(f, c)| >= 1
    ensures PathOf(f, c)[|PathOf(f, c)| - 1] == f.categoryEntries[c].name
  {
  }

  /**
   * Because sibling names are unique, a category is identified by its path:
   * two categories with the same path are the same category.
   */
  lemma {:induction false} PathsUnique(f: Forest, a: nat, b: nat)
    requires WellFormed(f)
    requires a < |f.categoryEntries| && b < |f.categoryEntries|
    requires PathOf(f, a) == PathOf(f, b)
    ensures a == b
    decreases a
  {
    var ea, eb := f.categoryEntries[a], f.categoryEntries[b];
    PathOfLength(f, a);
    PathOfLength(f, b);
    assert ea.parent.Some? <==> eb.parent.Some? by {
      if ea.parent.Some? { PathOfLength(f, ea.parent.value); }
      if eb.parent.Some? { PathOfLength(f, eb.parent.value); }
    }
    if ea.parent.Some? {
      var pa, pb := ea.parent.value, eb.parent.value;
      assert PathOf(f, a)[..|PathOf(f, a)| - 1] == PathOf(f, pa);
      assert PathOf(f, b)[..|PathOf(f, b)| - 1] == PathOf(f, pb);
      PathsUnique(f, pa, pb);
    }
    SameNameSameCategory(f, ea.parent, a, b);
  }

  /** Two categories of one list with the same name are the same category. */
  lemma SameNameSameCategory(f: Forest, parent: Option<nat>, a: nat, b: nat)
    requires SiblingNamesUnique(f)
    requires a < |f.categoryEntries| && b < |f.categoryEntries|
    requires a in Siblings(f, parent) && b in Siblings(f, parent)
    requires f.categoryEntries[a].name == f.categoryEntries[b].name
    ensures a == b
  {
    var list := Siblings(f, parent);
    assert UniqueNames(f, list) by {
      if parent.Some? && parent.value < |f.categoryEntries| {
        assert list == f.categoryEntries[parent.value].categories;
      }
    }
    var i :| 0 <= i < |list| && list[i] == a;
    var j :| 0 <= j < |list| && list[j] == b;
  }

  /** Some category of `f` has exactly this path. */
  ghost predicate PathExists(f: Forest, path: seq<string>)
  {
    exists c :: 0 <= c < |f.categoryEntries| && PathOf(f, c) == path
  }

  /** Every prefix of a category's path is the path of one of its ancestors. */
  lemma {:induction false} Ancestor(f: Forest, c: nat, d: nat) returns (a: nat)
    requires ParentsFirst(f)
    requires c < |f.categoryEntries| && 1 <= d <= |PathOf(f, c)|
    ensures a < |f.categoryEntries| && PathOf(f, a) == PathOf(f, c)[..d]
    decreases c
  {
    if d == |PathOf(f, c)| {
      a := c;
    } else {
      var p := f.categoryEntries[c].parent.value;
      assert PathOf(f, c) == PathOf(f, p) + [f.categoryEntries[c].name];
      assert PathOf(f, c)[..d] == PathOf(f, p)[..d];
      a := Ancestor(f, p, d);
    }
  }

  /**
   * When no sibling under `parent` carries the next segment's name, no
   * category anywhere has the remaining path: AddRecursive is right to
   * create it.
   */
  lemma NoPathWithoutSibling(f: Forest, parent: Option<nat>, categories: seq<string>)
    requires WellFormed(f) && ValidParent(f, parent) && |categories| > 0
    requires forall c :: c in Siblings(f, parent) && c < |f.categoryEntries| ==> f.categoryEntries[c].name != categories[0]
    ensures !PathExists(f, CategoryPath(f, parent) + categories)
  {
    var path := CategoryPath(f, parent) + categories;
    forall c | 0 <= c < |f.categoryEntries| ensures PathOf(f, c) != path {
      if PathOf(f, c) == path {
        SiblingOnPath(f, parent, categories, c);
      }
    }
  }

  /** A category with the path would have an ancestor among the siblings carrying the next segment. */
  lemma SiblingOnPath(f: Forest, parent: Option<nat>, categories: seq<string>, c: nat)
    requires WellFormed(f) && ValidParent(f, parent) && |categories| > 0
    requires c < |f.categoryEntries| && PathOf(f, c) == CategoryPath(f, parent) + categories
    ensures exists a :: a in Siblings(f, parent) && a < |f.categoryEntries| && f.categoryEntries[a].name == categories[0]
  {
    var prefix := CategoryPath(f, parent);
    PathOfLength(f, c);
    if parent.Some? {
      PathOfLength(f, parent.value);
    }
    var a := Ancestor(f, c, |prefix| + 1);
    FirstAfterPrefix(prefix, categories);
    SiblingForPath(f, parent, a, categories[0]);
  }

  lemma FirstAfterPrefix<T>(prefix: seq<T>, rest: seq<T>)
    requires |rest| > 0
    ensures (prefix + rest)[..|prefix| + 1] == prefix + [rest[0]]
  {
  }

  /** A category whose path is the parent's path plus one name is listed under that parent with that name. */
  lemma SiblingForPath(f: Forest, parent: Option<nat>, a: nat, name: string)
    requires WellFormed(f) && ValidParent(f, parent) && a < |f.categoryEntries|
    requires PathOf(f, a) == CategoryPath(f, parent) + [name]
    ensures a in Siblings(f, parent) && f.categoryEntries[a].name == name
  {
    var e := f.categoryEntries[a];
    PathOfLength(f, a);
    assert e.parent.Some? <==> parent.Some? by {
      if e.parent.Some? { PathOfLength(f, e.parent.value); }
      if parent.Some? { PathOfLength(f, parent.value); }
    }
    if parent.Some? {
      var q, p := e.parent.value, parent.value;
      assert PathOf(f, a) == PathOf(f, q) + [e.name];
      assert PathOf(f, q) == PathOf(f, a)[..|PathOf(f, a)| - 1] == PathOf(f, p);
      PathsUnique(f, q, p);
    }
    assert a in Siblings(f, e.parent);
  }

  /** Growing the dictionary does not change the path of an existing category. */
  lemma {:induction false} PathKept(f: Forest, g: Forest, c: nat)
    requires Grows(f, g) && ParentsFirst(f)
    requires c < |f.categoryEntries|
    ensures PathOf(g, c) == PathOf(f, c)
    decreases c
  {
    assert Keeps(f.categoryEntries[c], g.categoryEntries[c]);
    match f.categoryEntries[c].parent
    case None =>
    case Some(p) => PathKept(f, g, p);
  }

  lemma PathsKept(f: Forest, g: Forest)
    requires Grows(f, g) && ParentsFirst(f)
    ensures forall c :: 0 <= c < |f.categoryEntries| ==> PathOf(g, c) == PathOf(f, c)
  {
    forall c | 0 <= c < |f.categoryEntries| ensures PathOf(g, c) == PathOf(f, c) {
      PathKept(f, g, c);
    }
  }

  lemma GrowsTransitive(f: Forest, g: Forest, h: Forest)
    requires Grows(f, g) && Grows(g, h)
    ensures Grows(f, h)
  {
    assert h.nodeEntries[..|f.nodeEntries|] == g.nodeEntries[..|g.nodeEntries|][..|f.nodeEntries|];
    forall c | 0 <= c < |f.categoryEntries| ensures Keeps(f.categoryEntries[c], h.categoryEntries[c]) {
      assert Keeps(f.categoryEntries[c], g.categoryEntries[c]);
      assert Keeps(g.categoryEntries[c], h.categoryEntries[c]);
    }
  }

  // ---------------------------------------------------------------------
  // The two mutations of AddRecursive, as functions on the value
  // ---------------------------------------------------------------------

  /** `new CNodesDictionaryCategoryEntry(name, parent)` pushed into the parent's list. */
  function WithCategory(f: Forest, name: string, parent: Option<nat>): Forest
  {
    var id := |f.categoryEntries|;
    var entries := f.categoryEntries + [CategoryEntry(name, "", parent, [], [])];
    match parent
    case None => f.(categories := f.categories + [id], categoryEntries := entries)
    case Some(p) =>
      if p < id then f.(categoryEntries := entries[p := entries[p].(categories := entries[p].categories + [id])])
      else f.(categoryEntries := entries)
  }

  /** `new CNodesDictionaryNodeEntry(name, fullName, command, parent)` pushed into the parent's node list. */
  function WithNode(f: Forest, name: string, fullName: string, command: CommandId, parent: Option<nat>): Forest
  {
    var id := |f.nodeEntries|;
    var entries := f.nodeEntries + [NodeEntry(name, fullName, command, parent)];
    match parent
    case None => f.(nodes := f.nodes + [id], nodeEntries := entries)
    case Some(p) =>
      if p < |f.categoryEntries| then
        f.(nodeEntries := entries,
           categoryEntries := f.categoryEntries[p := f.categoryEntries[p].(nodes := f.categoryEntries[p].nodes + [id])])
      else f.(nodeEntries := entries)
  }

  /** What WithCategory does, entry by entry. */
  ghost predicate AddsCategory(f: Forest, g: Forest, name: string, parent: Option<nat>)
  {
    var id := |f.categoryEntries|;
    && ValidParent(f, parent)
    && |g.categoryEntries| == id + 1
    && g.nodes == f.nodes && g.nodeEntries == f.nodeEntries
    && g.categoryEntries[id] == CategoryEntry(name, "", parent, [], [])
    && g.categories == (if parent.None? then f.categories + [id] else f.categories)
    && (forall c :: 0 <= c < id && parent != Some(c) ==> g.categoryEntries[c] == f.categoryEntries[c])
    && (parent.Some? ==> var p := parent.value;
          g.categoryEntries[p] == f.categoryEntries[p].(categories := f.categoryEntries[p].categories + [id]))
  }

  lemma WithCategoryAdds(f: Forest, name: string, parent: Option<nat>)
    requires ValidParent(f, parent)
    ensures AddsCategory(f, WithCategory(f, name, parent), name, parent)
  {
  }

  lemma AddsCategoryGrows(f: Forest, g: Forest, name: string, parent: Option<nat>)
    requires AddsCategory(f, g, name, parent)
    ensures Grows(f, g)
    ensures Siblings(g, parent) == Siblings(f, parent) + [|f.categoryEntries|]
  {
    forall c | 0 <= c < |f.categoryEntries| ensures Keeps(f.categoryEntries[c], g.categoryEntries[c]) {
    }
  }

  lemma AddsCategoryLinked(f: Forest, g: Forest, name: string, parent: Option<nat>)
    requires Linked(f) && AddsCategory(f, g, name, parent)
    ensures Linked(g)
  {
    var id := |f.categoryEntries|;
    AddsCategoryKeeps(f, g, name, parent);
    CategoriesStillUnder(f, g, f.categories, None);
    if parent.None? {
      CategoriesAppended(g, f.categories, None, id);
    }
    forall c | 0 <= c < |g.categoryEntries|
      ensures CategoriesUnder(g, g.categoryEntries[c].categories, Some(c))
      ensures NodesUnder(g, g.categoryEntries[c].nodes, Some(c))
    {
      if c < id {
        EntryStillLinked(f, g, name, parent, c);
      }
    }
  }

  /** An old category's lists still point back at it once the new category is added. */
  lemma EntryStillLinked(f: Forest, g: Forest, name: string, parent: Option<nat>, c: nat)
    requires Linked(f) && AddsCategory(f, g, name, parent) && c < |f.categoryEntries|
    requires forall c :: 0 <= c < |f.categoryEntries| ==> g.categoryEntries[c].parent == f.categoryEntries[c].parent
    ensures CategoriesUnder(g, g.categoryEntries[c].categories, Some(c))
    ensures NodesUnder(g, g.categoryEntries[c].nodes, Some(c))
  {
    var list := f.categoryEntries[c].categories;
    assert CategoriesUnder(f, list, Some(c)) && NodesUnder(f, f.categoryEntries[c].nodes, Some(c));
    CategoriesStillUnder(f, g, list, Some(c));
    if parent == Some(c) {
      CategoriesAppended(g, list, Some(c), |f.categoryEntries|);
    }
  }

  /** Old entries keep their names and parents; the node entries do not change. */
  lemma AddsCategoryKeeps(f: Forest, g: Forest, name: string, parent: Option<nat>)
    requires AddsCategory(f, g, name, parent)
    ensures forall c :: 0 <= c < |f.categoryEntries| ==>
      g.categoryEntries[c].parent == f.categoryEntries[c].parent && g.categoryEntries[c].name == f.categoryEntries[c].name
    ensures forall c :: 0 <= c < |f.categoryEntries| && parent != Some(c) ==> g.categoryEntries[c] == f.categoryEntries[c]
  {
  }

  lemma CategoriesStillUnder(f: Forest, g: Forest, list: seq<nat>, parent: Option<nat>)
    requires CategoriesUnder(f, list, parent)
    requires |f.categoryEntries| <= |g.categoryEntries|
    requires forall c :: 0 <= c < |f.categoryEntries| ==> g.categoryEntries[c].parent == f.categoryEntries[c].parent
    ensures CategoriesUnder(g, list, parent)
  {
  }

  lemma CategoriesAppended(g: Forest, list: seq<nat>, parent: Option<nat>, id: nat)
    requires CategoriesUnder(g, list, parent)
    requires id < |g.categoryEntries| && g.categoryEntries[id].parent == parent
    ensures CategoriesUnder(g, list + [id], parent)
  {
    var l := list + [id];
    forall i | 0 <= i < |l| ensures l[i] < |g.categoryEntries| && g.categoryEntries[l[i]].parent == parent {
      if i < |list| { assert l[i] == list[i]; }
    }
  }

  lemma AddsCategoryListed(f: Forest, g: Forest, name: string, parent: Option<nat>)
    requires Listed(f) && AddsCategory(f, g, name, parent)
    ensures Listed(g)
  {
    var id := |f.categoryEntries|;
    AddsCategoryGrows(f, g, name, parent);
    AddsCategoryKeeps(f, g, name, parent);
    forall c | 0 <= c < |g.categoryEntries| ensures c in Siblings(g, g.categoryEntries[c].parent) {
      if c < id {
        var p := f.categoryEntries[c].parent;
        assert c in Siblings(f, p);
        ListsGrow(f, g, name, parent, p);
      }
    }
    forall k | 0 <= k < |g.nodeEntries|
      ensures ValidParent(g, g.nodeEntries[k].parent) && k in NodeList(g, g.nodeEntries[k].parent)
    {
      ListsGrow(f, g, name, parent, f.nodeEntries[k].parent);
    }
  }

  /** Adding a category only lengthens the sibling list of its parent, and leaves every node list alone. */
  lemma ListsGrow(f: Forest, g: Forest, name: string, parent: Option<nat>, p: Option<nat>)
    requires AddsCategory(f, g, name, parent)
    ensures Siblings(f, p) <= Siblings(g, p)
    ensures ValidParent(f, p) ==> ValidParent(g, p) && NodeList(g, p) == NodeList(f, p)
  {
    if p == parent {
      AddsCategoryGrows(f, g, name, parent);
    }
  }

  lemma AddsCategoryUnique(f: Forest, g: Forest, name: string, parent: Option<nat>)
    requires Linked(f) && SiblingNamesUnique(f) && AddsCategory(f, g, name, parent)
    requires forall c :: c in Siblings(f, parent) && c < |f.categoryEntries| ==> f.categoryEntries[c].name != name
    ensures SiblingNamesUnique(g)
  {
    InnerListsUnique(f, g, name, parent);
    AddsCategoryKeeps(f, g, name, parent);
    ListUnique(f, g, name, parent, None);
  }

  /** The children of every category, old or new, keep unique names. */
  lemma InnerListsUnique(f: Forest, g: Forest, name: string, parent: Option<nat>)
    requires Linked(f) && SiblingNamesUnique(f) && AddsCategory(f, g, name, parent)
    requires forall c :: c in Siblings(f, parent) && c < |f.categoryEntries| ==> f.categoryEntries[c].name != name
    ensures forall c :: 0 <= c < |g.categoryEntries| ==> UniqueNames(g, g.categoryEntries[c].categories)
  {
    forall c | 0 <= c < |g.categoryEntries| ensures UniqueNames(g, g.categoryEntries[c].categories) {
      if c < |f.categoryEntries| {
        InnerListUnique(f, g, name, parent, c);
      } else {
        assert g.categoryEntries[c].categories == [];
      }
    }
  }

  /** The children of one old category keep unique names. */
  lemma InnerListUnique(f: Forest, g: Forest, name: string, parent: Option<nat>, c: nat)
    requires AddsCategory(f, g, name, parent) && c < |f.categoryEntries|
    requires UniqueNames(f, f.categoryEntries[c].categories)
    requires CategoriesUnder(f, f.categoryEntries[c].categories, Some(c))
    requires parent == Some(c) ==> forall k :: k in Siblings(f, parent) && k < |f.categoryEntries| ==> f.categoryEntries[k].name != name
    ensures UniqueNames(g, g.categoryEntries[c].categories)
  {
    AddsCategoryKeeps(f, g, name, parent);
    ListUnique(f, g, name, parent, Some(c));
  }

  /** The sibling list under `p` keeps unique names, whether or not the new category joined it. */
  lemma ListUnique(f: Forest, g: Forest, name: string, parent: Option<nat>, p: Option<nat>)
    requires AddsCategory(f, g, name, parent) && ValidParent(f, p)
    requires forall c :: 0 <= c < |f.categoryEntries| ==> g.categoryEntries[c].name == f.categoryEntries[c].name
    requires UniqueNames(f, Siblings(f, p)) && CategoriesUnder(f, Siblings(f, p), p)
    requires p == parent ==> forall c :: c in Siblings(f, parent) && c < |f.categoryEntries| ==> f.categoryEntries[c].name != name
    ensures UniqueNames(g, Siblings(g, p))
  {
    var list := Siblings(f, p);
    assert forall i :: 0 <= i < |list| ==> list[i] < |f.categoryEntries|;
    if p == parent {
      AddsCategoryGrows(f, g, name, parent);
      UniqueAfterAppend(f, g, list, name);
    } else {
      assert Siblings(g, p) == list;
      UniqueKept(f, g, list);
    }
  }

  /** A list of old categories keeps unique names: old entries keep their names. */
  lemma UniqueKept(f: Forest, g: Forest, list: seq<nat>)
    requires UniqueNames(f, list)
    requires |f.categoryEntries| <= |g.categoryEntries|
    requires forall c :: 0 <= c < |f.categoryEntries| ==> g.categoryEntries[c].name == f.categoryEntries[c].name
    requires forall i :: 0 <= i < |list| ==> list[i] < |f.categoryEntries|
    ensures UniqueNames(g, list)
  {
  }

  /** Appending a fresh category of a new name keeps a list's names unique. */
  lemma UniqueAfterAppend(f: Forest, g: Forest, list: seq<nat>, name: string)
    requires |g.categoryEntries| == |f.categoryEntries| + 1
    requires g.categoryEntries[|f.categoryEntries|].name == name
    requires forall c :: 0 <= c < |f.categoryEntries| ==> g.categoryEntries[c].name == f.categoryEntries[c].name
    requires UniqueNames(f, list)
    requires forall c :: c in list && c < |f.categoryEntries| ==> f.categoryEntries[c].name != name
    requires forall i :: 0 <= i < |list| ==> list[i] < |f.categoryEntries|
    ensures UniqueNames(g, list + [|f.categoryEntries|])
  {
    var id := |f.categoryEntries|;
    var l := list + [id];
    forall i, j | 0 <= i < j < |l| && l[i] < |g.categoryEntries| && l[j] < |g.categoryEntries|
      ensures g.categoryEntries[l[i]].name != g.categoryEntries[l[j]].name
    {
      assert l[i] == list[i];
      if j < |list| {
        assert l[j] == list[j];
      } else {
        assert list[i] in list;
      }
    }
  }

  /** Adding a category whose name no sibling carries keeps the dictionary well formed. */
  lemma CategoryAdded(f: Forest, name: string, parent: Option<nat>)
    requires WellFormed(f) && ValidParent(f, parent)
    requires forall c :: c in Siblings(f, parent) && c < |f.categoryEntries| ==> f.categoryEntries[c].name != name
    ensures var g := WithCategory(f, name, parent);
      && WellFormed(g)
      && Grows(f, g)
      && AddsCategory(f, g, name, parent)
      && PathOf(g, |f.categoryEntries|) == CategoryPath(f, parent) + [name]
  {
    var g := WithCategory(f, name, parent);
    WithCategoryAdds(f, name, parent);
    AddsCategoryGrows(f, g, name, parent);
    AddsCategoryLinked(f, g, name, parent);
    AddsCategoryListed(f, g, name, parent);
    AddsCategoryUnique(f, g, name, parent);
    AddsCategoryParentsFirst(f, g, name, parent);
    NewCategoryPath(f, g, name, parent);
  }

  lemma AddsCategoryParentsFirst(f: Forest, g: Forest, name: string, parent: Option<nat>)
    requires ParentsFirst(f) && AddsCategory(f, g, name, parent)
    ensures ParentsFirst(g)
  {
    AddsCategoryKeeps(f, g, name, parent);
  }

  /** The new category's path is its parent's path and its own name. */
  lemma NewCategoryPath(f: Forest, g: Forest, name: string, parent: Option<nat>)
    requires ParentsFirst(f) && Grows(f, g) && AddsCategory(f, g, name, parent)
    ensures PathOf(g, |f.categoryEntries|) == CategoryPath(f, parent) + [name]
  {
    if parent.Some? {
      PathKept(f, g, parent.value);
    }
  }

  /** What WithNode does, entry by entry. */
  ghost predicate AddsNode(f: Forest, g: Forest, node: NodeEntry)
  {
    var id := |f.nodeEntries|;
    && ValidParent(f, node.parent)
    && g.nodeEntries == f.nodeEntries + [node]
    && g.categories == f.categories
    && |g.categoryEntries| == |f.categoryEntries|
    && g.nodes == (if node.parent.None? then f.nodes + [id] else f.nodes)
    && (forall c :: 0 <= c < |f.categoryEntries| && node.parent != Some(c) ==> g.categoryEntries[c] == f.categoryEntries[c])
    && (node.parent.Some? ==> var p := node.parent.value;
          g.categoryEntries[p] == f.categoryEntries[p].(nodes := f.categoryEntries[p].nodes + [id]))
  }

  lemma WithNodeAdds(f: Forest, name: string, fullName: string, command: CommandId, parent: Option<nat>)
    requires ValidParent(f, parent)
    ensures AddsNode(f, WithNode(f, name, fullName, command, parent), NodeEntry(name, fullName, command, parent))
  {
  }

  lemma AddsNodeGrows(f: Forest, g: Forest, node: NodeEntry)
    requires AddsNode(f, g, node)
    ensures Grows(f, g)
    ensures NodeList(g, node.parent) == NodeList(f, node.parent) + [|f.nodeEntries|]
    ensures forall c :: 0 <= c < |f.categoryEntries| ==> g.categoryEntries[c].categories == f.categoryEntries[c].categories
  {
    forall c | 0 <= c < |f.categoryEntries| ensures Keeps(f.categoryEntries[c], g.categoryEntries[c]) {
    }
  }

  lemma AddsNodeLinked(f: Forest, g: Forest, node: NodeEntry)
    requires Linked(f) && AddsNode(f, g, node)
    ensures Linked(g)
  {
    forall c | 0 <= c < |g.categoryEntries|
      ensures CategoriesUnder(g, g.categoryEntries[c].categories, Some(c))
      ensures NodesUnder(g, g.categoryEntries[c].nodes, Some(c))
    {
      assert CategoriesUnder(f, f.categoryEntries[c].categories, Some(c));
      assert NodesUnder(f, f.categoryEntries[c].nodes, Some(c));
    }
  }

  lemma AddsNodeListed(f: Forest, g: Forest, node: NodeEntry)
    requires Listed(f) && AddsNode(f, g, node)
    ensures Listed(g)
  {
    var id := |f.nodeEntries|;
    AddsNodeGrows(f, g, node);
    forall c | 0 <= c < |g.categoryEntries| ensures c in Siblings(g, g.categoryEntries[c].parent) {
      assert Siblings(f, f.categoryEntries[c].parent) == Siblings(g, g.categoryEntries[c].parent);
    }
    forall k | 0 <= k < |g.nodeEntries|
      ensures ValidParent(g, g.nodeEntries[k].parent) && k in NodeList(g, g.nodeEntries[k].parent)
    {
      if k < id {
        var p := f.nodeEntries[k].parent;
        assert k in NodeList(f, p);
        assert NodeList(f, p) <= NodeList(g, p);
      }
    }
  }

  lemma AddsNodeUnique(f: Forest, g: Forest, node: NodeEntry)
    requires SiblingNamesUnique(f) && Linked(f) && AddsNode(f, g, node)
    ensures SiblingNamesUnique(g)
  {
    AddsNodeGrows(f, g, node);
    forall c | 0 <= c < |g.categoryEntries| ensures UniqueNames(g, g.categoryEntries[c].categories) {
      assert UniqueNames(f, f.categoryEntries[c].categories);
      assert CategoriesUnder(f, f.categoryEntries[c].categories, Some(c));
      UniqueKept(f, g, f.categoryEntries[c].categories);
    }
    UniqueKept(f, g, f.categories);
  }

  /** Adding a node keeps the dictionary well formed and places it last in its parent's list. */
  lemma NodeAdded(f: Forest, name: string, fullName: string, command: CommandId, parent: Option<nat>)
    requires WellFormed(f) && ValidParent(f, parent)
    ensures var g := WithNode(f, name, fullName, command, parent);
      && WellFormed(g)
      && Grows(f, g)
      && |g.categoryEntries| == |f.categoryEntries|
      && (forall c :: 0 <= c < |f.categoryEntries| ==> PathOf(g, c) == PathOf(f, c))
      && (forall c :: 0 <= c < |f.categoryEntries| ==> g.categoryEntries[c].parent == f.categoryEntries[c].parent)
      && g.nodeEntries == f.nodeEntries + [NodeEntry(name, fullName, command, parent)]
      && NodeListsFramed(f, g, parent, |f.nodeEntries|)
  {
    var node := NodeEntry(name, fullName, command, parent);
    var g := WithNode(f, name, fullName, command, parent);
    WithNodeAdds(f, name, fullName, command, parent);
    AddsNodeGrows(f, g, node);
    AddsNodeLinked(f, g, node);
    AddsNodeListed(f, g, node);
    AddsNodeUnique(f, g, node);
    AddsNodeFramed(f, g, node);
    assert ParentsFirst(g);
    PathsKept(f, g);
  }

  /** Adding a node touches its parent's node list only. */
  lemma AddsNodeFramed(f: Forest, g: Forest, node: NodeEntry)
    requires AddsNode(f, g, node)
    ensures NodeListsFramed(f, g, node.parent, |f.nodeEntries|)
  {
    AddsNodeGrows(f, g, node);
    forall p: Option<nat> | p != node.parent ensures NodeList(g, p) == NodeList(f, p) {
      if p.Some? && p.value < |f.categoryEntries| {
        assert g.categoryEntries[p.value] == f.categoryEntries[p.value];
      }
    }
  }

  /** The state of AddChain after creating the first `k` categories of the chain. */
  ghost predicate ChainSoFar(f0: Forest, g: Forest, parentCategory: Option<nat>, categories: seq<string>, k: nat, parent: Option<nat>)
  {
    ChainShape(f0, g, parentCategory, k, parent) && ChainPaths(f0, g, parentCategory, categories, k, parent)
  }

  /** The links of the chain: each new category under the one before it. */
  ghost predicate ChainShape(f0: Forest, g: Forest, parentCategory: Option<nat>, k: nat, parent: Option<nat>)
  {
    var n := |f0.categoryEntries|;
    && ValidParent(f0, parentCategory)
    && Grows(f0, g)
    && |g.categoryEntries| == n + k
    && g.nodeEntries == f0.nodeEntries
    && (forall p: Option<nat> :: NodeList(g, p) == NodeList(f0, p))
    && ValidParent(g, parent)
    && (k == 0 ==> parent == parentCategory && g == f0)
    && (k > 0 ==> parent == Some(n + k - 1) && g.categoryEntries[n + k - 1].categories == []
                  && g.categoryEntries[n].parent == parentCategory)
    && (forall c :: n < c < n + k ==> g.categoryEntries[c].parent == Some(c - 1))
  }

  /** The names of the chain: the first `k` segments, and every new category on the way. */
  ghost predicate ChainPaths(f0: Forest, g: Forest, parentCategory: Option<nat>, categories: seq<string>, k: nat, parent: Option<nat>)
  {
    && k <= |categories|
    && CategoryPath(g, parent) == CategoryPath(f0, parentCategory) + categories[..k]
    && (forall c :: |f0.categoryEntries| <= c < |g.categoryEntries| ==>
          PathOf(g, c) <= CategoryPath(f0, parentCategory) + categories)
  }

  /** One turn of the chain loop: a new category under the previous one. */
  lemma ChainStep(f0: Forest, f: Forest, parentCategory: Option<nat>, categories: seq<string>, k: nat, parent: Option<nat>)
    requires WellFormed(f) && ChainSoFar(f0, f, parentCategory, categories, k, parent) && k < |categories|
    requires forall c :: c in Siblings(f0, parentCategory) && c < |f0.categoryEntries| ==>
               f0.categoryEntries[c].name != categories[0]
    ensures var g := WithCategory(f, categories[k], parent);
      WellFormed(g) && ChainSoFar(f0, g, parentCategory, categories, k + 1, Some(|f.categoryEntries|))
  {
    NoClash(f0, f, parentCategory, categories, k, parent);
    CategoryAdded(f, categories[k], parent);
    NodeListsKept(f, categories[k], parent);
    ChainExtended(f0, f, WithCategory(f, categories[k], parent), parentCategory, categories, k, parent);
  }

  /**
   * The next segment clashes with no sibling: the first one by assumption,
   * every later one because its parent was created empty a turn before.
   */
  lemma NoClash(f0: Forest, f: Forest, parentCategory: Option<nat>, categories: seq<string>, k: nat, parent: Option<nat>)
    requires ChainShape(f0, f, parentCategory, k, parent) && k < |categories|
    requires forall c :: c in Siblings(f0, parentCategory) && c < |f0.categoryEntries| ==>
               f0.categoryEntries[c].name != categories[0]
    ensures forall c :: c in Siblings(f, parent) && c < |f.categoryEntries| ==> f.categoryEntries[c].name != categories[k]
  {
    if k > 0 {
      assert Siblings(f, parent) == [];
    }
  }

  lemma ChainExtended(f0: Forest, f: Forest, g: Forest, parentCategory: Option<nat>, categories: seq<string>, k: nat, parent: Option<nat>)
    requires ChainSoFar(f0, f, parentCategory, categories, k, parent) && k < |categories|
    requires ParentsFirst(f) && Grows(f, g)
    requires |g.categoryEntries| == |f.categoryEntries| + 1 && g.nodeEntries == f.nodeEntries
    requires forall p: Option<nat> :: NodeList(g, p) == NodeList(f, p)
    requires g.categoryEntries[|f.categoryEntries|] == CategoryEntry(categories[k], "", parent, [], [])
    requires PathOf(g, |f.categoryEntries|) == CategoryPath(f, parent) + [categories[k]]
    ensures ChainSoFar(f0, g, parentCategory, categories, k + 1, Some(|f.categoryEntries|))
  {
    ShapeExtended(f0, f, g, parentCategory, k, parent, categories[k]);
    PathsKept(f, g);
    PathsExtended(f0, f, g, parentCategory, categories, k, parent);
  }

  lemma PathsExtended(f0: Forest, f: Forest, g: Forest, parentCategory: Option<nat>, categories: seq<string>, k: nat, parent: Option<nat>)
    requires ChainPaths(f0, f, parentCategory, categories, k, parent) && k < |categories|
    requires |f.categoryEntries| == |f0.categoryEntries| + k && |g.categoryEntries| == |f.categoryEntries| + 1
    requires forall c :: 0 <= c < |f.categoryEntries| ==> PathOf(g, c) == PathOf(f, c)
    requires PathOf(g, |f.categoryEntries|) == CategoryPath(f, parent) + [categories[k]]
    ensures ChainPaths(f0, g, parentCategory, categories, k + 1, Some(|f.categoryEntries|))
  {
    var prefix := CategoryPath(f0, parentCategory);
    assert categories[..k + 1] == categories[..k] + [categories[k]];
    ChainPrefixes(f0, f, g, categories, k, prefix);
  }

  lemma ShapeExtended(f0: Forest, f: Forest, g: Forest, parentCategory: Option<nat>, k: nat, parent: Option<nat>, name: string)
    requires ChainShape(f0, f, parentCategory, k, parent)
    requires Grows(f, g) && |g.categoryEntries| == |f.categoryEntries| + 1 && g.nodeEntries == f.nodeEntries
    requires forall p: Option<nat> :: NodeList(g, p) == NodeList(f, p)
    requires g.categoryEntries[|f.categoryEntries|] == CategoryEntry(name, "", parent, [], [])
    ensures ChainShape(f0, g, parentCategory, k + 1, Some(|f.categoryEntries|))
  {
    var n := |f0.categoryEntries|;
    var id := |f.categoryEntries|;
    GrowsTransitive(f0, f, g);
    ParentsKept(f, g);
    LinksExtended(f, g, n, k, parent);
    if k > 0 {
      assert g.categoryEntries[n].parent == f.categoryEntries[n].parent;
    }
  }

  /** Adding a category leaves every node list as it was; the new category's list is empty. */
  lemma NodeListsKept(f: Forest, name: string, parent: Option<nat>)
    ensures forall p: Option<nat> :: NodeList(WithCategory(f, name, parent), p) == NodeList(f, p)
  {
    var g := WithCategory(f, name, parent);
    forall p: Option<nat> ensures NodeList(g, p) == NodeList(f, p) {
      if p.Some? && p.value < |f.categoryEntries| {
        assert g.categoryEntries[p.value].nodes == f.categoryEntries[p.value].nodes;
      }
    }
  }

  /** Growing keeps every existing category's parent. */
  lemma ParentsKept(f: Forest, g: Forest)
    requires Grows(f, g)
    ensures forall c :: 0 <= c < |f.categoryEntries| ==> g.categoryEntries[c].parent == f.categoryEntries[c].parent
  {
    forall c | 0 <= c < |f.categoryEntries| ensures g.categoryEntries[c].parent == f.categoryEntries[c].parent {
      assert Keeps(f.categoryEntries[c], g.categoryEntries[c]);
    }
  }

  /** The parent links of the chain, one category longer. */
  lemma LinksExtended(f: Forest, g: Forest, n: nat, k: nat, parent: Option<nat>)
    requires |f.categoryEntries| == n + k && |g.categoryEntries| == n + k + 1
    requires forall c :: n < c < n + k ==> f.categoryEntries[c].parent == Some(c - 1)
    requires forall c :: 0 <= c < |f.categoryEntries| ==> g.categoryEntries[c].parent == f.categoryEntries[c].parent
    requires g.categoryEntries[n + k].parent == parent
    requires k > 0 ==> parent == Some(n + k - 1)
    ensures forall c :: n < c < n + k + 1 ==> g.categoryEntries[c].parent == Some(c - 1)
  {
  }

  lemma ChainPrefixes(f0: Forest, f: Forest, g: Forest, categories: seq<string>, k: nat, prefix: seq<string>)
    requires k < |categories| && |f.categoryEntries| == |f0.categoryEntries| + k
    requires |g.categoryEntries| == |f.categoryEntries| + 1
    requires forall c :: 0 <= c < |f.categoryEntries| ==> PathOf(g, c) == PathOf(f, c)
    requires forall c :: |f0.categoryEntries| <= c < |f.categoryEntries| ==> PathOf(f, c) <= prefix + categories
    requires PathOf(g, |f.categoryEntries|) == prefix + categories[..k + 1]
    ensures forall c :: |f0.categoryEntries| <= c < |g.categoryEntries| ==> PathOf(g, c) <= prefix + categories
  {
    assert categories[..k + 1] <= categories;
  }

  /** After the chain loop: the node goes into the last new category. */
  lemma ChainEnd(f0: Forest, f: Forest, g: Forest, parentCategory: Option<nat>, categories: seq<string>, parent: Option<nat>,
                 node: NodeEntry)
    requires ChainSoFar(f0, f, parentCategory, categories, |categories|, parent) && |categories| > 0
    requires node.parent == parent
    requires Grows(f, g) && |g.categoryEntries| == |f.categoryEntries|
    requires forall c :: 0 <= c < |f.categoryEntries| ==> PathOf(g, c) == PathOf(f, c)
    requires forall c :: 0 <= c < |f.categoryEntries| ==> g.categoryEntries[c].parent == f.categoryEntries[c].parent
    requires g.nodeEntries == f.nodeEntries + [node]
    requires NodeListsFramed(f, g, parent, |f.nodeEntries|)
    ensures Grows(f0, g)
    ensures |g.categoryEntries| == |f0.categoryEntries| + |categories|
    ensures NodePlaced(f0, g, node.name, node.fullName, node.command, CategoryPath(f0, parentCategory) + categories)
    ensures FreshChain(f0, g, CategoryPath(f0, parentCategory) + categories)
  {
    GrowsTransitive(f0, f, g);
    assert categories[..|categories|] == categories;
    ChainEndPlaced(f0, f, g, parentCategory, categories, parent, node);
    ChainEndFresh(f0, f, g, parentCategory, categories, parent, node);
  }

  lemma ChainEndPlaced(f0: Forest, f: Forest, g: Forest, parentCategory: Option<nat>, categories: seq<string>,
                       parent: Option<nat>, node: NodeEntry)
    requires ChainPaths(f0, f, parentCategory, categories, |categories|, parent)
    requires forall p: Option<nat> :: NodeList(f, p) == NodeList(f0, p)
    requires ValidParent(f, parent) && parent.Some? && node.parent == parent
    requires |f.nodeEntries| == |f0.nodeEntries| && |g.categoryEntries| == |f.categoryEntries|
    requires forall c :: 0 <= c < |f.categoryEntries| ==> PathOf(g, c) == PathOf(f, c)
    requires g.nodeEntries == f.nodeEntries + [node]
    requires NodeListsFramed(f, g, parent, |f.nodeEntries|)
    ensures NodePlaced(f0, g, node.name, node.fullName, node.command, CategoryPath(f0, parentCategory) + categories)
  {
    assert categories[..|categories|] == categories;
    assert CategoryPath(g, parent) == CategoryPath(f, parent);
    assert NodeList(f, parent) == NodeList(f0, parent);
  }

  lemma ChainEndFresh(f0: Forest, f: Forest, g: Forest, parentCategory: Option<nat>, categories: seq<string>,
                      parent: Option<nat>, node: NodeEntry)
    requires ChainShape(f0, f, parentCategory, |categories|, parent) && |categories| > 0
    requires ChainPaths(f0, f, parentCategory, categories, |categories|, parent)
    requires node.parent == parent
    requires |g.categoryEntries| == |f.categoryEntries|
    requires forall c :: 0 <= c < |f.categoryEntries| ==> PathOf(g, c) == PathOf(f, c)
    requires forall c :: 0 <= c < |f.categoryEntries| ==> g.categoryEntries[c].parent == f.categoryEntries[c].parent
    requires g.nodeEntries == f.nodeEntries + [node]
    ensures FreshChain(f0, g, CategoryPath(f0, parentCategory) + categories)
  {
    var n := |f0.categoryEntries|;
    assert |f.nodeEntries| == |f0.nodeEntries|;
    assert g.categoryEntries[n].parent == f.categoryEntries[n].parent;
  }

  /** The node entry AddOption creates shows its short name and full optionLabel in the Name and Filter columns. */
  lemma NodeColumns(fullName: string, command: CommandId, parent: Option<nat>)
    ensures var node := NodeEntry(MenuLabels.LabelName(fullName), fullName, command, parent);
      && node.GetColumnValue(ColumnName) == Text(MenuLabels.LabelName(fullName))
      && node.GetColumnValue(ColumnFilter) == Text(fullName)
      && node.GetColumnValue(ColumnIdentifier) == Identifier(command)
      && MenuLabels.Join(MenuLabels.LabelPath(fullName) + [node.GetColumnValue(ColumnName).text]) == fullName
  {
    MenuLabels.LabelParts(fullName);
  }

  /** A category answers the Name and Filter columns only; it never has an identifier. */
  lemma CategoryColumns(category: CategoryEntry, columnIndex: int)
    ensures category.GetColumnValue(columnIndex) != NoValue <==> columnIndex == ColumnName || columnIndex == ColumnFilter
    ensures !category.GetColumnValue(columnIndex).Identifier?
  {
  }

  // ---------------------------------------------------------------------
  // The dictionary object and its creator
  // ---------------------------------------------------------------------

  /** Descending into the category named by the first segment leaves the rest of the path. */
  lemma StepDown(prefix: seq<string>, categories: seq<string>)
    requires |categories| > 0
    ensures prefix + [categories[0]] + categories[1..] == prefix + categories
  {
    assert categories == [categories[0]] + categories[1..];
  }

  class Dictionary {
    /** m_categories and m_nodes: the root level. */
    var categories: seq<nat>
    var nodes: seq<nat>
    /** The heap-allocated entries, by index. */
    var categoryEntries: seq<CategoryEntry>
    var nodeEntries: seq<NodeEntry>

    function Snapshot(): Forest
      reads this
    {
      Forest(categories, nodes, categoryEntries, nodeEntries)
    }

    ghost predicate Valid()
      reads this
    {
      WellFormed(Snapshot())
    }

    constructor ()
      ensures Valid() && Snapshot() == EmptyForest
    {
      categories, nodes := [], [];
      categoryEntries, nodeEntries := [], [];
    }

    /** CNodesDictionary::GetEntry: root categories first, then root nodes. */
    function GetEntry(index: int): (r: Option<Entry>)
      reads this
      requires Int32Min <= index < Int32Limit
      ensures 0 <= index < |categories| ==> r == Some(CategoryRef(categories[index]))
      ensures |categories| + |nodes| <= Int32Limit ==> r == ChildAt(categories, nodes, index)
    {
      FlatEntry(index, categories, nodes)
    }

    /** Allocates a category entry and pushes it into its parent's list (or the root list). */
    method AppendCategory(name: string, parent: Option<nat>) returns (id: nat)
      modifies this
      ensures Snapshot() == WithCategory(old(Snapshot()), name, parent)
      ensures id == old(|categoryEntries|)
    {
      id := |categoryEntries|;
      categoryEntries := categoryEntries + [CategoryEntry(name, "", parent, [], [])];
      match parent
      case None =>
        categories := categories + [id];
      case Some(p) =>
        if p < id {
          categoryEntries := categoryEntries[p := categoryEntries[p].(categories := categoryEntries[p].categories + [id])];
        }
    }

    /** Allocates a node entry and pushes it into its parent's node list (or the root node list). */
    method AppendNode(name: string, fullName: string, command: CommandId, parent: Option<nat>)
      modifies this
      ensures Snapshot() == WithNode(old(Snapshot()), name, fullName, command, parent)
    {
      var id := |nodeEntries|;
      nodeEntries := nodeEntries + [NodeEntry(name, fullName, command, parent)];
      match parent
      case None =>
        nodes := nodes + [id];
      case Some(p) =>
        if p < |categoryEntries| {
          categoryEntries := categoryEntries[p := categoryEntries[p].(nodes := categoryEntries[p].nodes + [id])];
        }
    }
  }

  /** CNodesDictionaryCreator: the menu that the script graph populates. */
  class Creator {
    const dictionary: Dictionary
    /** m_fullName: the optionLabel of the option being added. */
    var fullName: string
    /** m_ppCommand: the command of the option being added. */
    var command: Option<CommandId>

    constructor (dictionary: Dictionary)
      ensures this.dictionary == dictionary && fullName == "" && command == None
    {
      this.dictionary := dictionary;
      fullName := "";
      command := None;
    }

    /**
     * AddOption: split the optionLabel on "::"; with a command, add one node under
     * the category path and report true; without one, report false and leave
     * the dictionary as it was.  Description and wiki link are not stored.
     */
    method AddOption(optionLabel: string, description: string, wikiLink: Option<string>, command: Option<CommandId>)
      returns (added: bool)
      requires dictionary.Valid()
      modifies this, dictionary
      ensures dictionary.Valid()
      ensures fullName == optionLabel
      ensures added <==> command.Some?
      ensures !added ==> dictionary.Snapshot() == old(dictionary.Snapshot())
      ensures added ==>
        && Grows(old(dictionary.Snapshot()), dictionary.Snapshot())
        && NodePlaced(old(dictionary.Snapshot()), dictionary.Snapshot(),
                      MenuLabels.LabelName(optionLabel), optionLabel, command.value, MenuLabels.LabelPath(optionLabel))
        && FreshChain(old(dictionary.Snapshot()), dictionary.Snapshot(), MenuLabels.LabelPath(optionLabel))
        && (PathExists(old(dictionary.Snapshot()), MenuLabels.LabelPath(optionLabel)) ==>
              |dictionary.categoryEntries| == old(|dictionary.categoryEntries|))
    {
      fullName := optionLabel;
      var categories := MenuLabels.Split(fullName);
      var name := categories[|categories| - 1];
      categories := categories[..|categories| - 1];
      if command.Some? {
        this.command := command;
        AddRecursive(name, categories, None);
        return true;
      }
      return false;
    }

    /**
     * AddRecursive: descend through existing categories whose names match
     * the path, create the rest of the path as a fresh chain, and append the
     * node to the deepest category (or to `parentCategory`'s node list, or
     * the root node list, when nothing is left of the path).
     */
    method AddRecursive(name: string, categories: seq<string>, parentCategory: Option<nat>)
      requires dictionary.Valid() && ValidParent(dictionary.Snapshot(), parentCategory)
      requires command.Some?
      modifies dictionary
      decreases |categories|, 1
      ensures dictionary.Valid()
      ensures Grows(old(dictionary.Snapshot()), dictionary.Snapshot())
      ensures NodePlaced(old(dictionary.Snapshot()), dictionary.Snapshot(), name, fullName, command.value,
                         CategoryPath(old(dictionary.Snapshot()), parentCategory) + categories)
      ensures FreshChain(old(dictionary.Snapshot()), dictionary.Snapshot(),
                         CategoryPath(old(dictionary.Snapshot()), parentCategory) + categories)
      ensures PathExists(old(dictionary.Snapshot()), CategoryPath(old(dictionary.Snapshot()), parentCategory) + categories) ==>
                |dictionary.categoryEntries| == old(|dictionary.categoryEntries|)
    {
      if |categories| > 0 {
        var found := FindCategory(categories[0], parentCategory);
        if found.Some? {
          AddBelow(name, categories, parentCategory, found.value);
        } else {
          NoPathWithoutSibling(dictionary.Snapshot(), parentCategory, categories);
          AddChain(name, categories, parentCategory);
        }
      } else {
        assert CategoryPath(dictionary.Snapshot(), parentCategory) + categories == CategoryPath(dictionary.Snapshot(), parentCategory);
        AddHere(name, parentCategory);
      }
    }

    /** The first segment names an existing category `item`: descend into it with the rest of the path. */
    method AddBelow(name: string, categories: seq<string>, parentCategory: Option<nat>, item: nat)
      requires dictionary.Valid() && ValidParent(dictionary.Snapshot(), parentCategory)
      requires command.Some? && |categories| > 0 && item < |dictionary.categoryEntries|
      requires PathOf(dictionary.Snapshot(), item) == CategoryPath(dictionary.Snapshot(), parentCategory) + [categories[0]]
      modifies dictionary
      decreases |categories|, 0
      ensures dictionary.Valid()
      ensures Grows(old(dictionary.Snapshot()), dictionary.Snapshot())
      ensures NodePlaced(old(dictionary.Snapshot()), dictionary.Snapshot(), name, fullName, command.value,
                         CategoryPath(old(dictionary.Snapshot()), parentCategory) + categories)
      ensures FreshChain(old(dictionary.Snapshot()), dictionary.Snapshot(),
                         CategoryPath(old(dictionary.Snapshot()), parentCategory) + categories)
      ensures PathExists(old(dictionary.Snapshot()), CategoryPath(old(dictionary.Snapshot()), parentCategory) + categories) ==>
                |dictionary.categoryEntries| == old(|dictionary.categoryEntries|)
    {
      StepDown(CategoryPath(dictionary.Snapshot(), parentCategory), categories);
      AddRecursive(name, categories[1..], Some(item));
    }

    /** Nothing is left of the path: the node goes into `parentCategory`'s node list. */
    method AddHere(name: string, parentCategory: Option<nat>)
      requires dictionary.Valid() && ValidParent(dictionary.Snapshot(), parentCategory)
      requires command.Some?
      modifies dictionary
      ensures dictionary.Valid()
      ensures Grows(old(dictionary.Snapshot()), dictionary.Snapshot())
      ensures NodePlaced(old(dictionary.Snapshot()), dictionary.Snapshot(), name, fullName, command.value,
                         CategoryPath(old(dictionary.Snapshot()), parentCategory))
      ensures FreshChain(old(dictionary.Snapshot()), dictionary.Snapshot(), CategoryPath(old(dictionary.Snapshot()), parentCategory))
      ensures |dictionary.categoryEntries| == old(|dictionary.categoryEntries|)
    {
      NodeAdded(dictionary.Snapshot(), name, fullName, command.value, parentCategory);
      dictionary.AppendNode(name, fullName, command.value, parentCategory);
    }

    method FindCategory(segment: string, parentCategory: Option<nat>) returns (found: Option<nat>)
      requires dictionary.Valid() && ValidParent(dictionary.Snapshot(), parentCategory)
      ensures found.Some? ==>
        && found.value in Siblings(dictionary.Snapshot(), parentCategory)
        && found.value < |dictionary.categoryEntries|
        && dictionary.categoryEntries[found.value].name == segment
        && PathOf(dictionary.Snapshot(), found.value) == CategoryPath(dictionary.Snapshot(), parentCategory) + [segment]
      ensures found.None? ==>
        forall c :: c in Siblings(dictionary.Snapshot(), parentCategory) && c < |dictionary.categoryEntries| ==>
          dictionary.categoryEntries[c].name != segment
    {
      ghost var f := dictionary.Snapshot();
      var categoryItems := Siblings(dictionary.Snapshot(), parentCategory);
      assert CategoriesUnder(f, categoryItems, parentCategory);
      for i := 0 to |categoryItems|
        invariant forall j :: 0 <= j < i ==> dictionary.categoryEntries[categoryItems[j]].name != segment
      {
        var item := categoryItems[i];
        if dictionary.categoryEntries[item].name == segment {
          assert f.categoryEntries[item].parent == parentCategory;
          return Some(item);
        }
      }
      forall c | c in categoryItems && c < |dictionary.categoryEntries|
        ensures dictionary.categoryEntries[c].name != segment
      {
        var j :| 0 <= j < |categoryItems| && categoryItems[j] == c;
      }
      return None;
    }

    /**
     * The second half of AddRecursive: no sibling matches the next segment,
     * so every remaining segment becomes a new category, each parented by the
     * one before it, and the node goes into the last of them.
     */
    method AddChain(name: string, categories: seq<string>, parentCategory: Option<nat>)
      requires dictionary.Valid() && ValidParent(dictionary.Snapshot(), parentCategory)
      requires command.Some? && |categories| > 0
      requires forall c :: c in Siblings(dictionary.Snapshot(), parentCategory) && c < |dictionary.categoryEntries| ==>
                 dictionary.categoryEntries[c].name != categories[0]
      modifies dictionary
      ensures dictionary.Valid()
      ensures Grows(old(dictionary.Snapshot()), dictionary.Snapshot())
      ensures |dictionary.categoryEntries| == old(|dictionary.categoryEntries|) + |categories|
      ensures NodePlaced(old(dictionary.Snapshot()), dictionary.Snapshot(), name, fullName, command.value,
                         CategoryPath(old(dictionary.Snapshot()), parentCategory) + categories)
      ensures FreshChain(old(dictionary.Snapshot()), dictionary.Snapshot(),
                         CategoryPath(old(dictionary.Snapshot()), parentCategory) + categories)
    {
      ghost var f0 := dictionary.Snapshot();
      var last := AppendChain(categories, parentCategory);
      ghost var f := dictionary.Snapshot();
      NodeAdded(f, name, fullName, command.value, Some(last));
      ChainEnd(f0, f, WithNode(f, name, fullName, command.value, Some(last)), parentCategory, categories, Some(last),
               NodeEntry(name, fullName, command.value, Some(last)));
      dictionary.AppendNode(name, fullName, command.value, Some(last));
    }

    /** The category-creating loop of AddChain; `last` is the deepest new category. */
    method AppendChain(categories: seq<string>, parentCategory: Option<nat>) returns (last: nat)
      requires dictionary.Valid() && ValidParent(dictionary.Snapshot(), parentCategory)
      requires |categories| > 0
      requires forall c :: c in Siblings(dictionary.Snapshot(), parentCategory) && c < |dictionary.categoryEntries| ==>
                 dictionary.categoryEntries[c].name != categories[0]
      modifies dictionary
      ensures dictionary.Valid()
      ensures ChainSoFar(old(dictionary.Snapshot()), dictionary.Snapshot(), parentCategory, categories, |categories|, Some(last))
    {
      ghost var f0 := dictionary.Snapshot();
      ghost var g := f0;
      var parent := parentCategory;
      last := 0;
      for k := 0 to |categories|
        invariant dictionary.Snapshot() == g
        invariant WellFormed(g)
        invariant ChainSoFar(f0, g, parentCategory, categories, k, parent)
        invariant k > 0 ==> parent == Some(last)
      {
        ChainStep(f0, g, parentCategory, categories, k, parent);
        last := dictionary.AppendCategory(categories[k], parent);
        g := WithCategory(g, categories[k], parent);
        parent := Some(last);
      }
    }
  }
}
