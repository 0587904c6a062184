# RED editing model: Variables section and joined Default Tags view

This project models two editing-side pieces of RED, the Robot Framework IDE, as
imperative Dafny over heap objects, and proves what they promise.

1. **The Variables section wrapper** (`RobotVariablesSection`). The editor keeps
   one `RobotVariable` wrapper per declaration of the suite's Variables table.
   The wrappers are the section's children, in the table's order. `link()`
   builds them. `createVariable` creates a scalar, list or dictionary
   declaration in the table and its wrapper at the same index. `addVariable`
   re-parents an existing wrapper and inserts it, and its declaration, at the
   same index in both lists. The class `RobotVariablesSection` keeps the
   children as a `seq` field, and the linked `VariableTable` is an object of its
   own. `Valid()` is the alignment invariant: `Links(elements) ==
   table.variables`, and every child names the section as its parent. Every
   operation preserves it. The error paths are modelled as values of type
   `Outcome` (`Ok` or `Thrown`) rather than excluded by preconditions:
   - an unsupported variable type raises `IllegalArgumentException` with the
     source's message, before anything changes;
   - an index outside `0..size` raises `IndexOutOfBoundsException`, as
     `java.util.List.add(int, E)` does.
2. **The joined "Default Tags" view** of the Settings table. The table may hold
   several Default Tags declarations. Each is a `DefaultTags` object with a list
   of `Token` objects whose text can be edited in place.
   - `SettingTable.defaultTags()` (`JoinedDefaultTags` here) returns a fresh view
     object. Its tags are the very token objects of the declarations, in table
     order and then insertion order.
   - Editing a token's text therefore shows in the view.
   - Adding a tag through the view appends a fresh token. It also replaces the
     table's declarations by the view alone.
   
   The three JUnit scenarios of `DefaultTagsViewTest` are modelled as methods
   whose postconditions are the assertions the tests make.

Files: `wrappers.dfy` (`Option`), `sequences.dfy` (insertion at an index and
in-order concatenation, with their lemmas), `variables_section.dfy`,
`default_tags_view.dfy` (the view, and the test scenarios in module
`DefaultTagsViewTest`).

Assumptions about code that is not part of this model:
- `VariableTable.createScalarVariable`, `createListVariable`,
  `createDictionaryVariable` and `addVariable` insert at the given index with
  `List.add` semantics. An out-of-range index throws before the table changes.
- `SettingTable.defaultTags()` and `DefaultTags.addTag` behave as
  `DefaultTagsViewTest` asserts. With no declaration, the view is absent.

## Model

| member | source | states |
|---|---|---|
| `Sequences.InsertAtIndex` | src/Eclipse-IDE/org.robotframework.ide.eclipse.main.plugin/src/org/robotframework/ide/eclipse/main/plugin/model/RobotVariablesSection.java:62 | After `add(index, x)`, `x` is at `index`, elements before it are unchanged, and each later element is the old one from one place to its left. |
| `Sequences.InsertAtUndo` | src/Eclipse-IDE/org.robotframework.ide.eclipse.main.plugin/src/org/robotframework/ide/eclipse/main/plugin/model/RobotVariablesSection.java:72 | Removing the inserted element at `index` gives back the list as it was before the insertion. Nothing else moved. |
| `Sequences.InsertAtEnd` | src/Eclipse-IDE/org.robotframework.ide.eclipse.main.plugin/src/org/robotframework/ide/eclipse/main/plugin/model/RobotVariablesSection.java:44-46 | Inserting at index = current size is appending. |
| `Sequences.ConcatAppend` | src/RobotFrameworkCore/org.robotframework.ide.core-functions/src/test/java/org/rf/ide/core/testdata/model/table/setting/views/DefaultTagsViewTest.java:38-48 | Joining two runs of tag lists gives the join of the first followed by the join of the second. |
| `Sequences.ConcatIndex` | src/RobotFrameworkCore/org.robotframework.ide.core-functions/src/test/java/org/rf/ide/core/testdata/model/table/setting/views/DefaultTagsViewTest.java:42-48 | Element `j` of list `k` is at position (total length of lists before `k`) + `j` of the join. |
| `Sequences.ConcatMembership` | src/RobotFrameworkCore/org.robotframework.ide.core-functions/src/test/java/org/rf/ide/core/testdata/model/table/setting/views/DefaultTagsViewTest.java:42-48 | An element is in the join exactly when it is in one of the lists, in both directions. |
| `VariablesSection.InitialContent` | src/Eclipse-IDE/org.robotframework.ide.eclipse.main.plugin/src/org/robotframework/ide/eclipse/main/plugin/model/RobotVariablesSection.java:50-59 | Only SCALAR, LIST and DICTIONARY can be created. Scalars and lists start with an empty value list, dictionaries with an empty key/value list. |
| `VariablesSection.VariableTable.AddVariable` | src/Eclipse-IDE/org.robotframework.ide.eclipse.main.plugin/src/org/robotframework/ide/eclipse/main/plugin/model/RobotVariablesSection.java:73 | The table inserts the declaration at `index`, or throws `IndexOutOfBounds` and stays unchanged (assumed `List.add` semantics). |
| `VariablesSection.VariableTable.CreateScalarVariable` | src/Eclipse-IDE/org.robotframework.ide.eclipse.main.plugin/src/org/robotframework/ide/eclipse/main/plugin/model/RobotVariablesSection.java:51 | A fresh SCALAR declaration with the given name and values is inserted at `index`, or the call throws and nothing changes. |
| `VariablesSection.VariableTable.CreateListVariable` | src/Eclipse-IDE/org.robotframework.ide.eclipse.main.plugin/src/org/robotframework/ide/eclipse/main/plugin/model/RobotVariablesSection.java:53 | A fresh LIST declaration with the given name and values is inserted at `index`, or the call throws and nothing changes. |
| `VariablesSection.VariableTable.CreateDictionaryVariable` | src/Eclipse-IDE/org.robotframework.ide.eclipse.main.plugin/src/org/robotframework/ide/eclipse/main/plugin/model/RobotVariablesSection.java:55-56 | A fresh DICTIONARY declaration with the given name and items is inserted at `index`, or the call throws and nothing changes. |
| `VariablesSection.LinksAppend` | src/Eclipse-IDE/org.robotframework.ide.eclipse.main.plugin/src/org/robotframework/ide/eclipse/main/plugin/model/RobotVariablesSection.java:27-30 | The declarations behind two runs of wrappers are those of the first run followed by those of the second. This is what `link()` relies on when it appends. |
| `VariablesSection.LinksInsertAt` | src/Eclipse-IDE/org.robotframework.ide.eclipse.main.plugin/src/org/robotframework/ide/eclipse/main/plugin/model/RobotVariablesSection.java:61-62 | Inserting a wrapper at `i` of the children inserts its declaration at `i` of their links. This keeps children and table aligned. |
| `VariablesSection.RobotVariable.SetParent` | src/Eclipse-IDE/org.robotframework.ide.eclipse.main.plugin/src/org/robotframework/ide/eclipse/main/plugin/model/RobotVariablesSection.java:71 | The wrapper's parent becomes the given section. |
| `VariablesSection.RobotVariablesSection.constructor` | src/Eclipse-IDE/org.robotframework.ide.eclipse.main.plugin/src/org/robotframework/ide/eclipse/main/plugin/model/RobotVariablesSection.java:19-23 | A new section is named "Variables", linked to the given table, and has no children. |
| `VariablesSection.RobotVariablesSection.Link` | src/Eclipse-IDE/org.robotframework.ide.eclipse.main.plugin/src/org/robotframework/ide/eclipse/main/plugin/model/RobotVariablesSection.java:26-31 | Appends exactly one fresh child per table declaration, in table order, each parented to the section. Earlier children are kept. Starting from no children, the section is aligned afterwards. |
| `VariablesSection.RobotVariablesSection.CreateVariableAt` | src/Eclipse-IDE/org.robotframework.ide.eclipse.main.plugin/src/org/robotframework/ide/eclipse/main/plugin/model/RobotVariablesSection.java:48-64 | An unsupported type throws IllegalArgument("Unable to create variable of type " + name) and a bad index throws IndexOutOfBounds; either way nothing changes. Otherwise a fresh, empty declaration with the given name and type is inserted at `index` of the table and its fresh wrapper at `index` of the children. Alignment is preserved. |
| `VariablesSection.RobotVariablesSection.CreateVariable` | src/Eclipse-IDE/org.robotframework.ide.eclipse.main.plugin/src/org/robotframework/ide/eclipse/main/plugin/model/RobotVariablesSection.java:44-46 | Creation at index = number of children: it appends to both lists, and only an unsupported type fails. |
| `VariablesSection.RobotVariablesSection.AddVariableAt` | src/Eclipse-IDE/org.robotframework.ide.eclipse.main.plugin/src/org/robotframework/ide/eclipse/main/plugin/model/RobotVariablesSection.java:70-74 | `v`'s parent becomes this section in every case. For an index in range, `v` is inserted at `index` of the children and its declaration at `index` of the table. Otherwise both lists are unchanged and the call throws. Alignment is preserved. |
| `VariablesSection.RobotVariablesSection.AddVariable` | src/Eclipse-IDE/org.robotframework.ide.eclipse.main.plugin/src/org/robotframework/ide/eclipse/main/plugin/model/RobotVariablesSection.java:66-68 | Appends `v` to the children and its declaration to the table, and re-parents `v`. |
| `DefaultTagsView.Token.SetText` | src/RobotFrameworkCore/org.robotframework.ide.core-functions/src/test/java/org/rf/ide/core/testdata/model/table/setting/views/DefaultTagsViewTest.java:107 | The token's text becomes the given text. |
| `DefaultTagsView.TextsAt` | src/RobotFrameworkCore/org.robotframework.ide.core-functions/src/test/java/org/rf/ide/core/testdata/model/table/setting/views/DefaultTagsViewTest.java:48 | The list of texts read from tokens has, at each position, the current text of the token there. |
| `DefaultTagsView.TextsAppend` | src/RobotFrameworkCore/org.robotframework.ide.core-functions/src/test/java/org/rf/ide/core/testdata/model/table/setting/views/DefaultTagsViewTest.java:80 | The texts of two token lists are those of the first followed by those of the second. |
| `DefaultTagsView.TextsEqual` | src/RobotFrameworkCore/org.robotframework.ide.core-functions/src/test/java/org/rf/ide/core/testdata/model/table/setting/views/DefaultTagsViewTest.java:48 | Tokens whose texts match a string list position by position have exactly that list as their texts. |
| `DefaultTagsView.DefaultTags.constructor` | src/RobotFrameworkCore/org.robotframework.ide.core-functions/src/test/java/org/rf/ide/core/testdata/model/table/setting/views/DefaultTagsViewTest.java:28-29 | A new declaration holds its declaration token and no tags, and is not a view. |
| `DefaultTagsView.DefaultTags.View` | src/RobotFrameworkCore/org.robotframework.ide.core-functions/src/test/java/org/rf/ide/core/testdata/model/table/setting/views/DefaultTagsViewTest.java:42-46 | A view holds the given token objects themselves and remembers the table it joins. |
| `DefaultTagsView.DefaultTags.AddTag` | src/RobotFrameworkCore/org.robotframework.ide.core-functions/src/test/java/org/rf/ide/core/testdata/model/table/setting/views/DefaultTagsViewTest.java:30-31 | Appends one fresh token with the given text and keeps the earlier tags in order. On a view, the table then holds exactly one declaration, the view itself, whose join is the view's tags. |
| `DefaultTagsView.JoinedAddEntry` | src/RobotFrameworkCore/org.robotframework.ide.core-functions/src/test/java/org/rf/ide/core/testdata/model/table/setting/views/DefaultTagsViewTest.java:38-39 | Adding a declaration to the table extends the joined tags by that declaration's tags. |
| `DefaultTagsView.JoinedIndex` | src/RobotFrameworkCore/org.robotframework.ide.core-functions/src/test/java/org/rf/ide/core/testdata/model/table/setting/views/DefaultTagsViewTest.java:106-113 | Tag `j` of declaration `k` is the same token object as the joined tag at position (tags before `k`) + `j`. |
| `DefaultTagsView.JoinedMembership` | src/RobotFrameworkCore/org.robotframework.ide.core-functions/src/test/java/org/rf/ide/core/testdata/model/table/setting/views/DefaultTagsViewTest.java:42-48 | A token is in the joined tags exactly when some declaration of the table holds it. |
| `DefaultTagsView.EditDeclarationTag` | src/RobotFrameworkCore/org.robotframework.ide.core-functions/src/test/java/org/rf/ide/core/testdata/model/table/setting/views/DefaultTagsViewTest.java:106-113 | Editing tag `j` of declaration `k`, when all joined tokens are distinct, does two things. The joined texts change at that tag's position to the new text, and at no other position. The joined token list itself is unchanged. |
| `DefaultTagsView.SettingTable.AddDefaultTags` | src/RobotFrameworkCore/org.robotframework.ide.core-functions/src/test/java/org/rf/ide/core/testdata/model/table/setting/views/DefaultTagsViewTest.java:38-39 | Appends the declaration to the table's Default Tags list. |
| `DefaultTagsView.SettingTable.JoinedDefaultTags` | src/RobotFrameworkCore/org.robotframework.ide.core-functions/src/test/java/org/rf/ide/core/testdata/model/table/setting/views/DefaultTagsViewTest.java:42-49 | The view is present exactly when the table holds a declaration. It is a fresh object whose tags are the declarations' tokens, joined in order. The table's declarations stay as they were. |
| `DefaultTagsViewTest.PrepareTwoDefaultTags` | src/RobotFrameworkCore/org.robotframework.ide.core-functions/src/test/java/org/rf/ide/core/testdata/model/table/setting/views/DefaultTagsViewTest.java:23-39 | The table holds two declarations, tagged "tag1", "tag2" and "tag1a", "tag2a", all four tokens distinct and fresh. |
| `DefaultTagsViewTest.JoinedOfTwo` | src/RobotFrameworkCore/org.robotframework.ide.core-functions/src/test/java/org/rf/ide/core/testdata/model/table/setting/views/DefaultTagsViewTest.java:42-48 | The join of two declarations is the first's tags followed by the second's. |
| `DefaultTagsViewTest.TagsRetrievalTwoDefaultTags` | src/RobotFrameworkCore/org.robotframework.ide.core-functions/src/test/java/org/rf/ide/core/testdata/model/table/setting/views/DefaultTagsViewTest.java:21-50 | The view is present, its texts are exactly "tag1", "tag2", "tag1a", "tag2a", and the table still holds 2 declarations. |
| `DefaultTagsViewTest.TagsRetrievalAfterAddThroughView` | src/RobotFrameworkCore/org.robotframework.ide.core-functions/src/test/java/org/rf/ide/core/testdata/model/table/setting/views/DefaultTagsViewTest.java:52-83 | After adding "tag3" through the view, its texts are "tag1", "tag2", "tag1a", "tag2a", "tag3". The table holds 1 declaration, and it is the view object. |
| `DefaultTagsViewTest.TagsRetrievalAfterModification` | src/RobotFrameworkCore/org.robotframework.ide.core-functions/src/test/java/org/rf/ide/core/testdata/model/table/setting/views/DefaultTagsViewTest.java:85-115 | After the second declaration's first tag is set to "mod", the view's texts are "tag1", "tag2", "mod", "tag2a". The table still holds 2 declarations. |

## Left out

- The text pipeline is not part of this model: separator detection, tokenizer, recognizer (`SuiteSetupDeclaration.java`), postfix fixers (`UnknownSettingsInExecutableTablesFixer.java`) and the dumper (`KeywordsNotChangedDumperTest.java`).
- `RedTextCellEditor.java` is SWT/NatTable cell-editing UI with asynchronous validation. `ExtractKeywordHandler.java` only throws "Not yet implemented!". `TestCaseName.java` only forwards an element type to its superclass. None of them has data logic to state.
- `getLinkedElement()` and `getChildren()` are casts to the concrete types. The model's typed fields `table` and `elements` take their place.
- The enum `AVariable.VariableType` is not part of this model's sources. Besides SCALAR, LIST and DICTIONARY, the model has the constants SCALAR_AS_LIST and INVALID, which stand for every other constant.
- A declaration is modelled by name, type and content only. Tokens, positions and comments of `AVariable`, and the token types and positions of `RobotToken`, are not modelled.
- The super-class `RobotSuiteFileSection` is not modelled beyond the section's name, children and linked table.
- VariablesSection.RobotVariablesSection.Link: guarantees alignment only when called with no children, which is how a new section starts. The source appends to whatever `elements` holds.
- VariablesSection.Links: its own contract gives only the length. The position-by-position statement is the lemma `LinksAt`.
- DefaultTagsView.SettingTable.JoinedDefaultTags: the tests fix only the case of two declarations. With one declaration the model still returns a fresh view, and with none it returns `None`.
- A view is a snapshot of the token list. A tag added afterwards to one of the table's own declarations is not in an earlier view. The tests do not cover this case.
- Java `int` indices are unbounded integers here. No index near the 32-bit limit arises, since list sizes are far below it.
- The engine's editing contract says a failing edit leaves the model unchanged. `addVariable` does not meet that: with an out-of-range index, it re-parents the wrapper before `List.add` throws. The model follows the code, so `AddVariableAt` changes `v.parent` on the error path too.
