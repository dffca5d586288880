# CryEngine Schematyc and entity-registration core, modelled in Dafny

This project models five pieces of CryEngine:

- **The node-creation dictionary of the Schematyc editor** (`nodes_dictionary.dfy`, `menu_labels.dfy`).
  - `CNodesDictionaryCreator::AddOption` splits a menu label such as `Type::Array::ForEach` on `::`.
  - It then walks the existing category entries whose names match the path.
  - It creates the rest of the path as a fresh chain of categories.
  - Finally it appends one node entry to the deepest category.
  - The dictionary answers column queries (`GetColumnValue`, `GetColumnAttribute`) and flat child lookups (`GetEntry`, `GetChildEntry`).
  - The entries are heap objects in the editor. Here they live in two arenas owned by the dictionary, and a pointer is an arena index.
- **The Schematyc runtime registry** (`runtime_registry.dfy`): `CRuntimeRegistry`, a map from GUID to compiled runtime class. A class is refused when its GUID is empty or already taken.
- **The `Array::ForEach` graph node** (`array_for_each.dfy`).
  - A cursor in its runtime data steps through the array: one `Loop` activation per element, then `Out`.
  - The node builds its port layout from the chosen element type.
  - It offers one menu option per environment data type.
- **The entity property helpers of `IEntityClass.h`** (`entity_class.dfy`).
  - Each `RegisterEntityProperty…` helper fills one `SPropertyInfo` and appends it to an `IEntityPropertyHandler`.
  - `SEntityPropertyGroupHelper` brackets a scope with `FolderBegin`/`FolderEnd` records.
  - This file also holds the class flags and the default class description.
- **The entity registrator list of the game template** (`game_plugin.dfy`).
  - Every `IEntityRegistrator`, as it is constructed, links itself to the end of the singly linked list from `g_pFirst` to `g_pLast`.

`common.dfy` holds `Option` and the 128-bit GUID.

The main properties proved:

- **Splitting and joining labels.**
  - Joining the parts of a label gives the label back.
  - Splitting a well-shaped list of parts, once joined, gives the parts back.
  - Splitting a concatenation splits each side.
- **`AddOption`.**
  - It keeps the dictionary well formed: entries are linked both ways, parents come first, and sibling category names are unique.
  - It only grows the dictionary.
  - It places the node under the category whose path is the label's path.
  - It creates only a fresh chain of categories, and none at all when that path already exists.
  - A category is identified by its path.
- **Runtime registry.**
  - Every key of the registry is the GUID of its class.
  - Registering and then releasing a class gives the original map back.
  - The first registration under a GUID wins.
- **`Array::ForEach`.** After an Input activation, `Loop` fires once per element in index order, then `Out` fires.
- **Property helpers.**
  - Every helper stamps its own type, edit type and flags, and the stamp identifies the helper.
  - Groups keep `FolderBegin`/`FolderEnd` balanced.
- **Registrator list.** Walking the list from `g_pFirst` meets the registrators in construction order.

## Model

| member | source | states |
|---|---|---|
| MenuLabels.Split | Code/Sandbox/Plugins/EditorSchematyc/NodeGraphRuntimeContext.cpp:137-139 | Splitting on `::` with empty parts kept always yields at least one part, so `back()` and `removeLast()` are defined for every label. |
| MenuLabels.JoinSplit | Code/Sandbox/Plugins/EditorSchematyc/NodeGraphRuntimeContext.cpp:137-139 | Joining the parts of any label with `::` gives the label back, so splitting loses nothing. |
| MenuLabels.SplitHasShape | Code/Sandbox/Plugins/EditorSchematyc/NodeGraphRuntimeContext.cpp:137-139 | No part contains `::`, and no part but the last ends in `:` (matches are taken left to right and never overlap). |
| MenuLabels.SplitJoin | Code/Sandbox/Plugins/EditorSchematyc/NodeGraphRuntimeContext.cpp:137-139 | For parts of that shape, splitting their join gives exactly those parts: Split and Join are inverse on well-shaped parts. |
| MenuLabels.SplitConcat | Code/Sandbox/Plugins/EditorSchematyc/NodeGraphRuntimeContext.cpp:137-139 | When the left side does not end in `:`, the split of `q + "::" + t` is the split of `q` followed by the split of `t`. |
| MenuLabels.SplitOfPlain | Code/Sandbox/Plugins/EditorSchematyc/NodeGraphRuntimeContext.cpp:137-141 | A label without `::` splits into itself alone: the category path is empty and the label is the node name. |
| MenuLabels.LabelParts | Code/Sandbox/Plugins/EditorSchematyc/NodeGraphRuntimeContext.cpp:137-141 | The category path followed by the node name joins back to the label, and the node name contains no `::`. |
| NodesDictionary.CategoryEntry.GetChildEntry | Code/Sandbox/Plugins/EditorSchematyc/NodeGraphRuntimeContext.cpp:76-88 | An index below the sub-category count gives that sub-category. For a level of at most 2^31 entries, the flat index gives sub-categories first, then nodes, and nothing outside, negative indices included. |
| NodesDictionary.FlatEntry | Code/Sandbox/Plugins/EditorSchematyc/NodeGraphRuntimeContext.cpp:105-117 | The lookup with its int32 to size_t conversions and the narrowing of `index - size()` agrees with the plain categories-then-nodes indexing whenever the level holds at most 2^31 entries. |
| NodesDictionary.Dictionary.GetEntry | Code/Sandbox/Plugins/EditorSchematyc/NodeGraphRuntimeContext.cpp:105-117 | The root level is indexed as root categories first, then root nodes, then nothing. |
| NodesDictionary.GetColumnAttributeAsWritten | Code/Sandbox/Plugins/EditorSchematyc/NodeGraphRuntimeContext.cpp:119-126 | As written, the signed guard lets through exactly the indices below the column count, negative ones included, and the slot returned is the index itself. |
| NodesDictionary.NegativeColumnEscapesTable | Code/Sandbox/Plugins/EditorSchematyc/NodeGraphRuntimeContext.cpp:119-126 | Index -1 passes the guard as written and designates a slot outside the attribute table. |
| NodesDictionary.GetColumnAttribute | Code/Sandbox/Plugins/EditorSchematyc/NodeGraphRuntimeContext.cpp:119-126 | With the lower bound added, an attribute is returned exactly for the indices 0 to 2, and it is that row of the table. Column 0 is the visible string column "Name". |
| NodesDictionary.NodeColumns | Code/Sandbox/Plugins/EditorSchematyc/NodeGraphRuntimeContext.cpp:21-42 | A node created by AddOption shows its short name in Name, the whole label in Filter and its command in Identifier. The node's path and its Name join back to the Filter text. |
| NodesDictionary.CategoryColumns | Code/Sandbox/Plugins/EditorSchematyc/NodeGraphRuntimeContext.cpp:56-74 | A category answers exactly the Name and Filter columns and never yields an identifier. |
| NodesDictionary.PathsUnique | Code/Sandbox/Plugins/EditorSchematyc/NodeGraphRuntimeContext.cpp:157-167 | In a well-formed dictionary, two categories with the same path from the root are the same category. This is why matching names one segment at a time finds the one category of a path. |
| NodesDictionary.NoPathWithoutSibling | Code/Sandbox/Plugins/EditorSchematyc/NodeGraphRuntimeContext.cpp:157-176 | When no sibling carries the next segment's name, no category anywhere has the remaining path, so creating the rest of the path cannot duplicate one. |
| NodesDictionary.PathsKept | Code/Sandbox/Plugins/EditorSchematyc/NodeGraphRuntimeContext.cpp:153-196 | Growing the dictionary never changes the path of an existing category. |
| NodesDictionary.GrowsTransitive | Code/Sandbox/Plugins/EditorSchematyc/NodeGraphRuntimeContext.cpp:153-196 | Growing twice is growing: names, parents and child-list prefixes of old entries survive any sequence of additions. |
| NodesDictionary.CategoryAdded | Code/Sandbox/Plugins/EditorSchematyc/NodeGraphRuntimeContext.cpp:171-172 | Allocating a category whose name no sibling carries and pushing it into its parent's list keeps the dictionary well formed. It only grows the dictionary, and it gives the new category its parent's path plus its name. |
| NodesDictionary.NodeAdded | Code/Sandbox/Plugins/EditorSchematyc/NodeGraphRuntimeContext.cpp:184-195 | Allocating a node entry and pushing it into its parent's node list (or the root node list) keeps the dictionary well formed. It only grows the dictionary, the node is last in that list, and every other node list is unchanged. |
| NodesDictionary.Dictionary.constructor | Code/Sandbox/Plugins/EditorSchematyc/NodeGraphRuntimeContext.cpp:95-98 | A new dictionary is empty and well formed. |
| NodesDictionary.Dictionary.AppendCategory | Code/Sandbox/Plugins/EditorSchematyc/NodeGraphRuntimeContext.cpp:171-172 | The new state is the old one with a category appended to the arena and to its parent's list (or the root list), and the new index is returned. |
| NodesDictionary.Dictionary.AppendNode | Code/Sandbox/Plugins/EditorSchematyc/NodeGraphRuntimeContext.cpp:178-195 | The new state is the old one with a node appended to the arena and to its parent's node list (or the root node list). |
| NodesDictionary.Creator.constructor | Code/Sandbox/Plugins/EditorSchematyc/NodeGraphRuntimeContext.cpp:131-133 | The creator is bound to its dictionary and holds no label or command yet. |
| NodesDictionary.Creator.AddOption | Code/Sandbox/Plugins/EditorSchematyc/NodeGraphRuntimeContext.cpp:135-151 | Success is reported exactly when a command is given; without one the dictionary is untouched. With one, the dictionary stays well formed and only grows, and one node (the label's last part as name, the whole label as full name, the command) is placed last under the category whose path is the rest of the label. Every other node list, the root list included, is unchanged. The categories created form one fresh chain along that path, and none is created when the path already existed. |
| NodesDictionary.Creator.AddRecursive | Code/Sandbox/Plugins/EditorSchematyc/NodeGraphRuntimeContext.cpp:153-196 | From `parentCategory`, the dictionary stays well formed and only grows. The node lands last in the node list of the category whose path is the parent's path plus `categories`, and no other node list changes. New categories form one chain along that path, and there are none when the path already exists. |
| NodesDictionary.Creator.FindCategory | Code/Sandbox/Plugins/EditorSchematyc/NodeGraphRuntimeContext.cpp:157-167 | The sibling search returns a sibling with the segment's name, whose path is the parent's path plus the segment; when it returns nothing, no sibling has that name. |
| NodesDictionary.Creator.AddBelow | Code/Sandbox/Plugins/EditorSchematyc/NodeGraphRuntimeContext.cpp:159-165 | Descending into a matching sibling with the rest of the path gives the same guarantees as AddRecursive for the whole path. |
| NodesDictionary.Creator.AddChain | Code/Sandbox/Plugins/EditorSchematyc/NodeGraphRuntimeContext.cpp:169-182 | With no matching sibling, exactly one category is created per remaining segment, each parented by the previous one, and the node goes into the last; no other node list changes. The dictionary stays well formed. |
| NodesDictionary.Creator.AppendChain | Code/Sandbox/Plugins/EditorSchematyc/NodeGraphRuntimeContext.cpp:169-176 | The category-creating loop keeps the dictionary well formed and leaves a chain whose paths are the successive prefixes of the requested path; every node list is as it was. |
| NodesDictionary.Creator.AddHere | Code/Sandbox/Plugins/EditorSchematyc/NodeGraphRuntimeContext.cpp:184-195 | With no segments left, the node goes last into the parent's node list (or the root node list), no other node list changes, and no category is created. |
| RuntimeRegistry.Registered | Code/CryEngine/CrySchematyc/Core/Impl/Runtime/RuntimeRegistry.cpp:20-32 | An empty or taken GUID leaves the map unchanged. Otherwise exactly that GUID is added, mapped to the class, and every existing entry is kept. |
| RuntimeRegistry.Released | Code/CryEngine/CrySchematyc/Core/Impl/Runtime/RuntimeRegistry.cpp:34-37 | After the erase the GUID is absent, and every other key and its class is unchanged. |
| RuntimeRegistry.RegisterKeepsKeys | Code/CryEngine/CrySchematyc/Core/Impl/Runtime/RuntimeRegistry.cpp:20-32 | Registration preserves the invariant that every key is a non-empty GUID equal to its class's own GUID. |
| RuntimeRegistry.ReleaseAbsent | Code/CryEngine/CrySchematyc/Core/Impl/Runtime/RuntimeRegistry.cpp:34-37 | Erasing an absent GUID changes nothing, and erasing twice is erasing once. |
| RuntimeRegistry.ReleaseUndoesRegister | Code/CryEngine/CrySchematyc/Core/Impl/Runtime/RuntimeRegistry.cpp:20-37 | Registering a class under a fresh GUID and then releasing that GUID restores the original map. |
| RuntimeRegistry.FirstRegistrationWins | Code/CryEngine/CrySchematyc/Core/Impl/Runtime/RuntimeRegistry.cpp:25-29 | A second registration under a GUID never displaces the class already there. |
| RuntimeRegistry.Registry.GetClass | Code/CryEngine/CrySchematyc/Core/Impl/Runtime/RuntimeRegistry.cpp:14-18 | A class is found exactly when its GUID is a key. Under the invariant, the class found reports that GUID, which is non-empty. |
| RuntimeRegistry.Registry.GetClassImpl | Code/CryEngine/CrySchematyc/Core/Impl/Runtime/RuntimeRegistry.cpp:39-43 | Gives the same answer as GetClass for every GUID. |
| RuntimeRegistry.Registry.RegisterClass | Code/CryEngine/CrySchematyc/Core/Impl/Runtime/RuntimeRegistry.cpp:20-32 | Keeps the invariant. A class with a non-empty, unused GUID becomes findable. Lookups of every other GUID are unchanged. |
| RuntimeRegistry.Registry.ReleaseClass | Code/CryEngine/CrySchematyc/Core/Impl/Runtime/RuntimeRegistry.cpp:34-37 | Keeps the invariant, the GUID is no longer found, and lookups of every other GUID are unchanged. |
| RuntimeRegistry.Registry.Reset | Code/CryEngine/CrySchematyc/Core/Impl/Runtime/RuntimeRegistry.cpp:45-48 | After clearing, no GUID finds a class. |
| ArrayForEach.RuntimeData.constructor | Code/CryEngine/CrySchematyc/Core/Impl/Script/Graph/Nodes/ScriptGraphArrayForEachNode.cpp:19-21 | A fresh cursor holds InvalidIdx. |
| ArrayForEach.RuntimeData.Copy | Code/CryEngine/CrySchematyc/Core/Impl/Script/Graph/Nodes/ScriptGraphArrayForEachNode.cpp:23-25 | A copy holds the same cursor. |
| ArrayForEach.Step | Code/CryEngine/CrySchematyc/Core/Impl/Script/Graph/Nodes/ScriptGraphArrayForEachNode.cpp:164-182 | An activation emits an element exactly when it fires Loop. Loop always asks for a repeat, and Out never does. |
| ArrayForEach.Execute | Code/CryEngine/CrySchematyc/Core/Impl/Script/Graph/Nodes/ScriptGraphArrayForEachNode.cpp:164-182 | The new cursor, the result and the value output are those of Step from the old cursor. The value output is untouched when Out fires. |
| ArrayForEach.StepStaysInBounds | Code/CryEngine/CrySchematyc/Core/Impl/Script/Graph/Nodes/ScriptGraphArrayForEachNode.cpp:170-181 | From a cursor within the array, the cursor stays within it. A repeat either advances by one and fires Loop, or stays put and fires Out. |
| ArrayForEach.RepeatsEmitInOrder | Code/CryEngine/CrySchematyc/Core/Impl/Script/Graph/Nodes/ScriptGraphArrayForEachNode.cpp:170-181 | Repeats from cursor `pos` emit the elements from `pos` on, one per activation and in index order, and then fire Out with the cursor at the end. |
| ArrayForEach.ForEachVisitsEveryElement | Code/CryEngine/CrySchematyc/Core/Impl/Script/Graph/Nodes/ScriptGraphArrayForEachNode.cpp:164-182 | An Input activation followed by repeats fires Loop exactly once per element, in index order, then Out, whatever the cursor held before. The cursor never exceeds the array size. |
| ArrayForEach.LayoutShape | Code/CryEngine/CrySchematyc/Core/Impl/Script/Graph/Nodes/ScriptGraphArrayForEachNode.cpp:41-56 | In, Out and Loop are always present. The Array input and the typed element output appear exactly when an element type is chosen, and both carry its GUID. An output is a flow port exactly when it carries no data. |
| ArrayForEach.ForEachNode.CreateLayout | Code/CryEngine/CrySchematyc/Core/Impl/Script/Graph/Nodes/ScriptGraphArrayForEachNode.cpp:41-56 | The layout gets the name "Array::ForEach", the purple color and exactly those ports appended in order. |
| ArrayForEach.ForEachNode.Compile | Code/CryEngine/CrySchematyc/Core/Impl/Script/Graph/Nodes/ScriptGraphArrayForEachNode.cpp:58-62 | Compiling binds the Execute callback and fresh runtime data whose cursor is InvalidIdx. |
| ArrayForEach.TypedLabel | Code/CryEngine/CrySchematyc/Core/Impl/Script/Graph/Nodes/ScriptGraphArrayForEachNode.cpp:146-149 | The typed label begins with the qualified type name, and what follows it is exactly `::` and "Array::ForEach". |
| ArrayForEach.TypedLabelSplit | Code/CryEngine/CrySchematyc/Core/Impl/Script/Graph/Nodes/ScriptGraphArrayForEachNode.cpp:146-149 | The dictionary splits a typed label into the type's own parts followed by "Array" and "ForEach". |
| ArrayForEach.TypedLabelPath | Code/CryEngine/CrySchematyc/Core/Impl/Script/Graph/Nodes/ScriptGraphArrayForEachNode.cpp:146-150 | Added to the dictionary, a typed option lands under the type's category path plus a category "Array", as a node named "ForEach". |
| ArrayForEach.ForEachLabelParts | Code/CryEngine/CrySchematyc/Core/Impl/Script/Graph/Nodes/ScriptGraphArrayForEachNode.cpp:139 | "Array::ForEach" splits into the category "Array" and the name "ForEach". |
| ArrayForEach.TypedOptions | Code/CryEngine/CrySchematyc/Core/Impl/Script/Graph/Nodes/ScriptGraphArrayForEachNode.cpp:144-155 | The visit adds one option per data type, in visiting order, carrying that type's label, the "all elements" description and that type's GUID. |
| ArrayForEach.UntypedOptionListedTwice | Code/CryEngine/CrySchematyc/Core/Impl/Script/Graph/Nodes/ScriptGraphArrayForEachNode.cpp:137-142 | As written, the first two options of the menu both carry the label "Array::ForEach" and no type, whatever the data types are. |
| ArrayForEach.MenuOptions | Code/CryEngine/CrySchematyc/Core/Impl/Script/Graph/Nodes/ScriptGraphArrayForEachNode.cpp:135-156 | The corrected menu has one untyped option first, then one option per data type, referencing that type's GUID. |
| ArrayForEach.TypedLabelsDiffer | Code/CryEngine/CrySchematyc/Core/Impl/Script/Graph/Nodes/ScriptGraphArrayForEachNode.cpp:146-149 | Different type names give different typed labels, and no typed label equals the untyped one. |
| ArrayForEach.OptionCaption | Code/CryEngine/CrySchematyc/Core/Impl/Script/Graph/Nodes/ScriptGraphArrayForEachNode.cpp:135-156 | The k-th option's caption is the untyped label for k = 0 and the typed label of the (k-1)-th type otherwise. |
| ArrayForEach.MenuLabelsDistinct | Code/CryEngine/CrySchematyc/Core/Impl/Script/Graph/Nodes/ScriptGraphArrayForEachNode.cpp:135-156 | With distinct qualified type names, every option of the corrected menu has its own caption. |
| EntityClass.ClassFlagsAreDistinctBits | Code/CryEngine/CryCommon/CryEntitySystem/IEntityClass.h:30-39 | The seven class flags are BIT(0) to BIT(6): each is a single bit, and no two overlap. |
| EntityClass.TypedProperty | Code/CryEngine/CryCommon/CryEntitySystem/IEntityClass.h:141-286 | A record is produced exactly for the specialisations that exist: Vec3, ColorF, bool, string, ITexture and IMaterial without limits, and float and int with limits. Every other instantiation reaches the asserting template. |
| EntityClass.HelperRecord | Code/CryEngine/CryCommon/CryEntitySystem/IEntityClass.h:154-423 | Every helper copies name, legacy name, default and description, and stamps its own type, edit type and flags. Flags are zero except for Enum. Limits are the caller's for float, int and Enum, 0..1 for bool, and unassigned otherwise. |
| EntityClass.SignatureIdentifiesHelper | Code/CryEngine/CryCommon/CryEntitySystem/IEntityClass.h:154-423 | Any two different helpers stamp different (type, edit type, flags) signatures. |
| EntityClass.GroupBalanced | Code/CryEngine/CryCommon/CryEntitySystem/IEntityClass.h:432-458 | A group scope around balanced registrations leaves them balanced: counting FolderBegin as +1 and FolderEnd as -1, no prefix goes negative and the total is 0. The count does not match folder names. |
| EntityClass.BalancedConcat | Code/CryEngine/CryCommon/CryEntitySystem/IEntityClass.h:432-458 | Balanced registrations made one after the other are balanced together. |
| EntityClass.HelperRecordBalanced | Code/CryEngine/CryCommon/CryEntitySystem/IEntityClass.h:141-423 | A value helper's record is never a folder record, so it is balanced on its own. |
| EntityClass.PropertyHandler.RegisterProperty | Code/CryEngine/CryCommon/CryEntitySystem/IEntityClass.h:101-103 | The record is appended and the returned index designates it. |
| EntityClass.PropertyHandler.GetPropertyCount | Code/CryEngine/CryCommon/CryEntitySystem/IEntityClass.h:105-106 | The count is the number of registered records. |
| EntityClass.PropertyHandler.GetPropertyInfo | Code/CryEngine/CryCommon/CryEntitySystem/IEntityClass.h:108-111 | Succeeds exactly for indices 0 to count-1 and then gives that record. |
| EntityClass.PropertyHandler.GetDefaultProperty | Code/CryEngine/CryCommon/CryEntitySystem/IEntityClass.h:113-123 | The record's default for a valid index, the empty string otherwise. |
| EntityClass.RegisterEntityProperty | Code/CryEngine/CryCommon/CryEntitySystem/IEntityClass.h:141-286 | A specialised instantiation appends exactly its record. An unspecialised one appends nothing. |
| EntityClass.RegisterEntityPropertyNamed | Code/CryEngine/CryCommon/CryEntitySystem/IEntityClass.h:288-406 | The Flare, Object and audio helpers append one String record with their own edit type. |
| EntityClass.RegisterEntityPropertyEnum | Code/CryEngine/CryCommon/CryEntitySystem/IEntityClass.h:408-423 | Appends one String record with the UIEnum and Unsorted flags and the given limits. |
| EntityClass.PropertyGroup.constructor | Code/CryEngine/CryCommon/CryEntitySystem/IEntityClass.h:434-443 | Constructing the group appends a FolderBegin record with the group's name. |
| EntityClass.PropertyGroup.Close | Code/CryEngine/CryCommon/CryEntitySystem/IEntityClass.h:445-452 | Ending the scope appends a FolderEnd record with the same name. |
| EntityClass.DefaultClassDesc | Code/CryEngine/CryCommon/CryEntitySystem/IEntityClass.h:658-669 | A default description has zero flags, empty strings, null pointers and no attributes. |
| GamePlugin.RegistratorList.constructor | Code/GameTemplates/cpp/FirstPersonShooter/Code/GamePlugin.h:90-91 | Both statics start out null, and the list is empty. |
| GamePlugin.RegistratorList.Construct | Code/GameTemplates/cpp/FirstPersonShooter/Code/GamePlugin.h:71-83 | Keeps the list well linked from `g_pFirst` to `g_pLast`, with the new registrator appended in construction order. The first registrator becomes both ends. A later one is linked from the old last one, and `g_pFirst` is left alone. |
| GamePlugin.RegistratorList.Walk | Code/GameTemplates/cpp/FirstPersonShooter/Code/GamePlugin.h:88-91 | Following `m_pNext` from `g_pFirst` meets every registrator exactly once, in construction order, and stops at null. |
| GamePlugin.GetGameObjectExtensionRMIData | Code/GameTemplates/cpp/FirstPersonShooter/Code/GamePlugin.h:41-45 | No RMI table: a null pointer and a count of 0. |

## Left out

- Qt and the item model are left out: `QString`, `QVariant` wrapping of column values, `CItemModelAttribute` and the virtual `GetParentEntry` / `GetIdentifier` pointers (NodeGraphRuntimeContext.cpp:49-54, 90-93). Column values are a small datatype.
- NodeGraphRuntimeContext.h is not part of this model. Two things follow from that:
  - The column enum order (Name, Filter, Identifier) is inferred from the attribute table.
  - A category entry's full name, set in its header-only constructor, is modelled as empty.
- The rest of NodeGraphRuntimeContext.cpp is left out: the runtime context and the dictionary's filling from a script graph. The dictionary's destructor has an empty body (NodeGraphRuntimeContext.cpp:100-103) and no entry is deleted in this file; the arenas likewise never free anything.
- Heap entries are arena indices: a pointer is an index, and `nullptr` is `None`. Aliasing between entries is therefore not modelled.
- NodesDictionary.Creator.AddRecursive: the single C++ function is split into FindCategory, AddBelow, AddChain, AppendChain and AddHere, one per branch. The descent, the creation loop and the three node placements are kept.
- NodesDictionary.Creator.AddOption: the description and the wiki link are accepted and ignored, as in the source.
- RuntimeRegistry.Registry.RegisterClass: the non-null assertion on the class pointer is enforced by the type. The critical-error log message is not modelled, only the refusal.
- Reference counting of runtime classes (`std::shared_ptr`) is left out. A class is a value holding its GUID and name.
- ArrayForEach.Execute: activation modes other than Input are treated as repeats, since the node only distinguishes Input.
- ArrayForEach.Execute: `Any::CopyAssign` into the value output is plain assignment of the element.
- The node's GUID, serialization, `CreateNode` and the registration of the node creator are left out.
- Script view name qualification (`QualifyName`) is a parameter: each environment data type arrives with its qualified name.
- EntityClass.PropertyHandler: `IEntityPropertyHandler` is an abstract interface. It is modelled as the list of registered records, which every implementation is documented to keep.
- EntityClass.TypedProperty: `SPropertyInfo::SLimits` holds floats. Limits are reals that are only copied, so float rounding is not modelled.
- EntityClass.RegisterEntityProperty: the unspecialised template's `assert` is modelled as registering nothing.
- EntityClass.PropertyGroup: the destructor is modelled as an explicit `Close`, since Dafny has no scope-exit hooks.
- The other declarations of IEntityClass.h (the entity class and registry interfaces, script-file handlers and event handlers) are left out. They hold no logic.
- GamePlugin.RegistratorList.Construct requires `m_pNext` to be null. The C++ constructor never writes it and relies on static zero-initialisation of registrator objects.
- GamePlugin.RegistratorList.Walk: GamePlugin.cpp, which walks the list and calls `Register()`, is not part of this model. Walk states what any such walk from `g_pFirst` along `m_pNext` meets.
- `RegisterEntityWithDefaultComponent`, `RegisterEntityComponent`, `Create` and the `CGamePlugin` plugin entry points are left out. They go through `gEnv` into systems outside this model.

## Findings

| source | as written | input that shows it | evidently intended | confidence | as-written member | corrected member |
|---|---|---|---|---|---|---|
| Code/Sandbox/Plugins/EditorSchematyc/NodeGraphRuntimeContext.cpp:119-126 | `GetColumnAttribute` guards with the signed test `index < eColumn_COUNT` only | `eColumn` is declared in NodeGraphRuntimeContext.h, which is not part of this model; an `int32` compared with it without a cast implies an unscoped enum, so the comparison is signed. Then `index = -1` passes the guard and returns `&s_columnAttributes[-1]`, one slot before the table | reject negative indices as well, `0 <= index < eColumn_COUNT`, returning null | not executed | NodesDictionary.GetColumnAttributeAsWritten, NodesDictionary.NegativeColumnEscapesTable | NodesDictionary.GetColumnAttribute |
| Code/CryEngine/CrySchematyc/Core/Impl/Script/Graph/Nodes/ScriptGraphArrayForEachNode.cpp:137-142 | `PopulateNodeCreationMenu` adds the untyped option "Array::ForEach" twice: first with "Iterate through elements in array", then with "Iterate through all elements in array" | any script view, even one with no data types: the menu's first two options carry the same label and no type | one untyped option, so every option label in the menu is distinct | not executed | ArrayForEach.UntypedOptionListedTwice | ArrayForEach.MenuOptions, ArrayForEach.MenuLabelsDistinct |
