/** The joined "Default Tags" view of a Settings table. The table may hold
    several Default Tags declarations, each an ordered list of tag tokens; the
    view lists all their tokens, declaration after declaration, sharing the
    token objects rather than copying them. Adding a tag through the view
    replaces the table's declarations by the view alone. */
module DefaultTagsView {
  import opened Wrappers
  import opened Sequences

  /** A token of the text model; its text can be edited in place. */
  class Token {
    var text: string

    constructor (text: string)
      ensures this.text == text
    {
      this.text := text;
    }

    method SetText(text: string)
      modifies this
      ensures this.text == text
    {
      this.text := text;
    }
  }

  /** The texts of a list of tokens, position by position. */
  function Texts(ts: seq<Token>): (r: seq<string>)
    reads ts
    ensures |r| == |ts|
  {
    if ts == [] then [] else [ts[0].text] + Texts(ts[1..])
  }

  /** The text at position `i` is the current text of the token at `i`. */
  lemma {:induction false} TextsAt(ts: seq<Token>, i: nat)
    requires i < |ts|
    ensures Texts(ts)[i] == ts[i].text
  {
    if i > 0 {
      TextsAt(ts[1..], i - 1);
    }
  }

  /** The texts of two token lists one after the other. */
  lemma {:induction false} TextsAppend(a: seq<Token>, b: seq<Token>)
    ensures Texts(a + b) == Texts(a) + Texts(b)
  {
    if a == [] {
      assert a + b == b;
    } else {
      assert (a + b)[1..] == a[1..] + b;
      TextsAppend(a[1..], b);
    }
  }

  /** Tokens whose texts are, position by position, the strings `expected`
      have exactly those texts. */
  lemma TextsEqual(ts: seq<Token>, expected: seq<string>)
    requires |ts| == |expected|
    requires forall i :: 0 <= i < |ts| ==> ts[i].text == expected[i]
    ensures Texts(ts) == expected
  {
    forall i | 0 <= i < |ts|
      ensures Texts(ts)[i] == expected[i]
    {
      TextsAt(ts, i);
    }
  }

  /** One Default Tags declaration: its declaration token and its tag tokens.
      `joinedFrom` is the table a joined view was taken from, and null for a
      declaration of the table itself. */
  class DefaultTags {
    const declaration: Token
    const joinedFrom: SettingTable?
    var tags: seq<Token>

    constructor (declaration: Token)
      ensures this.declaration == declaration && joinedFrom == null && tags == []
    {
      this.declaration := declaration;
      this.joinedFrom := null;
      this.tags := [];
    }

    constructor View(table: SettingTable, declaration: Token, tags: seq<Token>)
      ensures this.declaration == declaration && joinedFrom == table && this.tags == tags
    {
      this.declaration := declaration;
      this.joinedFrom := table;
      this.tags := tags;
    }

    /** Appends a fresh token with text `text`. On a joined view the table's
        declarations are first replaced by the view itself, so that the table
        then holds exactly the view's tags. */
    method AddTag(text: string)
      modifies this, joinedFrom
      ensures |tags| == |old(tags)| + 1 && tags[..|old(tags)|] == old(tags)
      ensures fresh(tags[|old(tags)|]) && tags[|old(tags)|].text == text
      ensures joinedFrom != null ==>
                joinedFrom.defaultTags == [this] && Joined(joinedFrom.defaultTags) == tags
    {
      if joinedFrom != null {
        joinedFrom.defaultTags := [this];
      }
      var tag := new Token(text);
      tags := tags + [tag];
      if joinedFrom != null {
        assert TagLists(joinedFrom.defaultTags) == [tags];
        assert Concat([tags]) == tags + Concat([tags][1..]);
      }
    }
  }

  /** The tag lists of several declarations, in order. */
  function TagLists(entries: seq<DefaultTags>): (r: seq<seq<Token>>)
    reads entries
    ensures |r| == |entries|
  {
    if entries == [] then [] else [entries[0].tags] + TagLists(entries[1..])
  }

  lemma {:induction false} TagListsAt(entries: seq<DefaultTags>, k: nat)
    requires k < |entries|
    ensures TagLists(entries)[k] == entries[k].tags
  {
    if k > 0 {
      TagListsAt(entries[1..], k - 1);
    }
  }

  lemma {:induction false} TagListsAppend(a: seq<DefaultTags>, b: seq<DefaultTags>)
    ensures TagLists(a + b) == TagLists(a) + TagLists(b)
  {
    if a == [] {
      assert a + b == b;
    } else {
      assert (a + b)[1..] == a[1..] + b;
      TagListsAppend(a[1..], b);
    }
  }

  /** All tags of several declarations, declaration after declaration. */
  function Joined(entries: seq<DefaultTags>): seq<Token>
    reads entries
  {
    Concat(TagLists(entries))
  }

  /** Adding a declaration to the table extends the joined tags by that
      declaration's tags. */
  lemma JoinedAddEntry(entries: seq<DefaultTags>, entry: DefaultTags)
    ensures Joined(entries + [entry]) == Joined(entries) + entry.tags
  {
    TagListsAppend(entries, [entry]);
    assert [entry][1..] == [];
    assert TagLists([entry]) == [entry.tags];
    ConcatAppend(TagLists(entries), [entry.tags]);
    assert [entry.tags][1..] == [];
    assert Concat([entry.tags]) == entry.tags + Concat([]);
  }

  /** Tag `j` of declaration `k` is the joined tag at the position after all
      tags of the declarations before `k`: the very same token object. */
  lemma JoinedIndex(entries: seq<DefaultTags>, k: nat, j: nat)
    requires k < |entries| && j < |entries[k].tags|
    ensures |Joined(entries[..k])| + j < |Joined(entries)|
    ensures Joined(entries)[|Joined(entries[..k])| + j] == entries[k].tags[j]
  {
    assert entries == entries[..k] + entries[k..];
    TagListsAppend(entries[..k], entries[k..]);
    assert TagLists(entries)[..k] == TagLists(entries[..k]);
    TagListsAt(entries, k);
    ConcatIndex(TagLists(entries), k, j);
  }

  /** A token is among the joined tags exactly when some declaration holds it. */
  lemma JoinedMembership(entries: seq<DefaultTags>, t: Token)
    ensures t in Joined(entries) <==> exists k :: 0 <= k < |entries| && t in entries[k].tags
  {
    ConcatMembership(TagLists(entries), t);
    if t in Joined(entries) {
      var k :| 0 <= k < |TagLists(entries)| && t in TagLists(entries)[k];
      TagListsAt(entries, k);
    }
    if exists k :: 0 <= k < |entries| && t in entries[k].tags {
      var k :| 0 <= k < |entries| && t in entries[k].tags;
      TagListsAt(entries, k);
    }
  }

  /** Edits the text of tag `j` of declaration `k` in place. Since a view
      holds the very same token objects, the edit shows in the joined tags at
      the position of that tag, and no other joined text changes. */
  method EditDeclarationTag(entries: seq<DefaultTags>, k: nat, j: nat, text: string)
    requires k < |entries| && j < |entries[k].tags|
    requires Distinct(Joined(entries))
    modifies entries[k].tags[j]
    ensures |Joined(entries[..k])| + j < |Joined(entries)|
    ensures Joined(entries) == old(Joined(entries))
    ensures Texts(Joined(entries)) == old(Texts(Joined(entries)))[|Joined(entries[..k])| + j := text]
  {
    JoinedIndex(entries, k, j);
    ghost var view := Joined(entries);
    ghost var p := |Joined(entries[..k])| + j;
    ghost var before := Texts(view);
    forall i | 0 <= i < |view|
      ensures before[i] == view[i].text
    {
      TextsAt(view, i);
    }
    var edited := entries[k].tags[j];
    assert view[p] == edited;
    edited.SetText(text);
    assert Joined(entries) == view;
    forall i | 0 <= i < |view|
      ensures view[i].text == before[p := text][i]
    {
      if i != p {
        assert view[i] != edited;
      }
    }
    TextsEqual(view, before[p := text]);
  }

  /** The Settings table's Default Tags declarations, in document order. */
  class SettingTable {
    var defaultTags: seq<DefaultTags>

    constructor ()
      ensures defaultTags == []
    {
      defaultTags := [];
    }

    method AddDefaultTags(entry: DefaultTags)
      modifies this
      ensures defaultTags == old(defaultTags) + [entry]
    {
      defaultTags := defaultTags + [entry];
    }

    /** The joined view: present exactly when the table holds a Default Tags
        declaration; a fresh object whose tags are the declarations' own
        tokens in order. The table itself is left as it is. */
    method JoinedDefaultTags() returns (r: Option<DefaultTags>)
      ensures r.Some? <==> |defaultTags| > 0
      ensures r.Some? ==>
                fresh(r.value) && r.value.joinedFrom == this
                && r.value.declaration == defaultTags[0].declaration
                && r.value.tags == Joined(defaultTags)
    {
      if |defaultTags| == 0 {
        return None;
      }
      var view := new DefaultTags.View(this, defaultTags[0].declaration, Joined(defaultTags));
      r := Some(view);
    }
  }
}

/** The three scenarios that fix how the joined Default Tags view behaves:
    reading it, adding a tag through it, and editing a tag of one of the
    declarations after the view was taken. */
module DefaultTagsViewTest {
  import opened Wrappers
  import opened Sequences
  import opened DefaultTagsView

  /** Two declarations with tags "tag1", "tag2" and "tag1a", "tag2a", added to
      a new Settings table in that order; all four tag tokens are distinct. */
  method PrepareTwoDefaultTags() returns (table: SettingTable, one: DefaultTags, two: DefaultTags)
    ensures fresh(table) && fresh(one) && fresh(two)
    ensures table.defaultTags == [one, two]
    ensures one.joinedFrom == null && two.joinedFrom == null
    ensures |one.tags| == 2 && |two.tags| == 2
    ensures one.tags[0].text == "tag1" && one.tags[1].text == "tag2"
    ensures two.tags[0].text == "tag1a" && two.tags[1].text == "tag2a"
    ensures Distinct(one.tags + two.tags)
    ensures forall t :: t in one.tags + two.tags ==> fresh(t)
  {
    table := new SettingTable();
    var tagDecOne := new Token("");
    one := new DefaultTags(tagDecOne);
    one.AddTag("tag1");
    one.AddTag("tag2");
    var tagDecTwo := new Token("");
    two := new DefaultTags(tagDecTwo);
    two.AddTag("tag1a");
    two.AddTag("tag2a");
    table.AddDefaultTags(one);
    table.AddDefaultTags(two);
    assert one.tags + two.tags == [one.tags[0], one.tags[1], two.tags[0], two.tags[1]];
  }

  /** The joined tags of two declarations are the first's then the second's. */
  lemma JoinedOfTwo(one: DefaultTags, two: DefaultTags)
    ensures Joined([one, two]) == one.tags + two.tags
    ensures Joined([one, two][..1]) == one.tags
  {
    JoinedAddEntry([], one);
    JoinedAddEntry([one], two);
    assert [] + [one] == [one] && [one] + [two] == [one, two] && [one, two][..1] == [one];
    assert Joined([]) == [];
  }

  /** The view of two declarations lists their four tags in order; the table
      keeps its two declarations. */
  method TagsRetrievalTwoDefaultTags() returns (present: bool, texts: seq<string>, entries: nat)
    ensures present && texts == ["tag1", "tag2", "tag1a", "tag2a"] && entries == 2
  {
    var table, one, two := PrepareTwoDefaultTags();
    var defaultTags := table.JoinedDefaultTags();
    present := defaultTags.Some?;
    var joined := defaultTags.value;
    JoinedOfTwo(one, two);
    TextsEqual(joined.tags, ["tag1", "tag2", "tag1a", "tag2a"]);
    texts := Texts(joined.tags);
    entries := |table.defaultTags|;
  }

  /** Adding "tag3" through the view appends it after the four joined tags and
      leaves the table with one declaration: the view object itself. */
  method TagsRetrievalAfterAddThroughView()
    returns (present: bool, texts: seq<string>, entries: nat, sameAsView: bool)
    ensures present && texts == ["tag1", "tag2", "tag1a", "tag2a", "tag3"]
    ensures entries == 1 && sameAsView
  {
    var table, one, two := PrepareTwoDefaultTags();
    var defaultTags := table.JoinedDefaultTags();
    var joined := defaultTags.value;
    JoinedOfTwo(one, two);
    joined.AddTag("tag3");
    TextsEqual(joined.tags, ["tag1", "tag2", "tag1a", "tag2a", "tag3"]);
    present := defaultTags.Some?;
    texts := Texts(joined.tags);
    entries := |table.defaultTags|;
    sameAsView := table.defaultTags[0] == joined;
  }

  /** Editing the first tag of the second declaration after the view was taken
      shows in the view at the third position, and nowhere else; the table
      keeps its two declarations. */
  method TagsRetrievalAfterModification() returns (present: bool, texts: seq<string>, entries: nat)
    ensures present && texts == ["tag1", "tag2", "mod", "tag2a"] && entries == 2
  {
    var table, one, two := PrepareTwoDefaultTags();
    var defaultTags := table.JoinedDefaultTags();
    var joined := defaultTags.value;
    JoinedOfTwo(one, two);
    TextsEqual(joined.tags, ["tag1", "tag2", "tag1a", "tag2a"]);
    assert two.tags[0] in one.tags + two.tags;
    EditDeclarationTag(table.defaultTags, 1, 0, "mod");
    present := defaultTags.Some?;
    texts := Texts(joined.tags);
    entries := |table.defaultTags|;
  }
}
