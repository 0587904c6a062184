/** The editor-side wrapper of a suite file's Variables table: a section that
    keeps one child wrapper per variable of the table it is linked to, in the
    table's order, and creates or adds variables in both at the same index. */
module VariablesSection {
  import opened Wrappers
  import opened Sequences

  const SectionName: string := "Variables"

  /** The kinds of variable declaration. Only the first three are handled by
      the section; the others stand for every remaining constant of the enum. */
  datatype VariableType = Scalar | ScalarAsList | List | Dictionary | Invalid

  function TypeName(kind: VariableType): string
  {
    match kind
    case Scalar => "SCALAR"
    case ScalarAsList => "SCALAR_AS_LIST"
    case List => "LIST"
    case Dictionary => "DICTIONARY"
    case Invalid => "INVALID"
  }

  /** The value part of a declaration: a list of values (scalar or list) or a
      list of key/value items (dictionary). */
  datatype Content = Values(values: seq<string>) | Items(items: seq<(string, string)>)

  /** The exceptions the section's operations raise. */
  datatype Failure =
    | IllegalArgument(message: string)
    | IndexOutOfBounds(index: int)

  /** A call that either returns a value or throws. */
  datatype Outcome<T> = Ok(value: T) | Thrown(failure: Failure)

  /** The empty content a new variable of kind `kind` is created with, or None
      when the section cannot create variables of that kind. */
  function InitialContent(kind: VariableType): (c: Option<Content>)
    ensures c.Some? <==> kind == Scalar || kind == List || kind == Dictionary
    ensures c.Some? ==> (c.value.Items? <==> kind == Dictionary)
    ensures c.Some? && c.value.Values? ==> c.value.values == []
    ensures c.Some? && c.value.Items? ==> c.value.items == []
  {
    match kind
    case Scalar => Some(Values([]))
    case List => Some(Values([]))
    case Dictionary => Some(Items([]))
    case _ => None
  }

  /** A variable declaration of the core model. */
  class Variable {
    const name: string
    const kind: VariableType
    const content: Content

    constructor (name: string, kind: VariableType, content: Content)
      ensures this.name == name && this.kind == kind && this.content == content
    {
      this.name := name;
      this.kind := kind;
      this.content := content;
    }
  }

  /** The core model's Variables table: its declarations in document order.
      Each creation or addition inserts at the given index as `List.add` does,
      and throws before changing anything when the index is out of range. */
  class VariableTable {
    var variables: seq<Variable>

    constructor (variables: seq<Variable>)
      ensures this.variables == variables
    {
      this.variables := variables;
    }

    method AddVariable(index: int, v: Variable) returns (r: Outcome<()>)
      modifies this
      ensures r.Ok? <==> 0 <= index <= |old(variables)|
      ensures r.Ok? ==> variables == InsertAt(old(variables), index, v)
      ensures r.Thrown? ==> r.failure == IndexOutOfBounds(index) && variables == old(variables)
    {
      if !(0 <= index <= |variables|) {
        return Thrown(IndexOutOfBounds(index));
      }
      variables := InsertAt(variables, index, v);
      r := Ok(());
    }

    method CreateVariable(index: int, name: string, kind: VariableType, content: Content)
      returns (r: Outcome<Variable>)
      modifies this
      ensures r.Ok? <==> 0 <= index <= |old(variables)|
      ensures r.Ok? ==>
                fresh(r.value) && r.value.name == name && r.value.kind == kind
                && r.value.content == content
                && variables == InsertAt(old(variables), index, r.value)
      ensures r.Thrown? ==> r.failure == IndexOutOfBounds(index) && variables == old(variables)
    {
      var v := new Variable(name, kind, content);
      var added := AddVariable(index, v);
      if added.Thrown? {
        return Thrown(added.failure);
      }
      r := Ok(v);
    }

    method CreateScalarVariable(index: int, name: string, values: seq<string>)
      returns (r: Outcome<Variable>)
      modifies this
      ensures r.Ok? <==> 0 <= index <= |old(variables)|
      ensures r.Ok? ==>
                fresh(r.value) && r.value.name == name && r.value.kind == Scalar
                && r.value.content == Values(values)
                && variables == InsertAt(old(variables), index, r.value)
      ensures r.Thrown? ==> r.failure == IndexOutOfBounds(index) && variables == old(variables)
    {
      r := CreateVariable(index, name, Scalar, Values(values));
    }

    method CreateListVariable(index: int, name: string, values: seq<string>)
      returns (r: Outcome<Variable>)
      modifies this
      ensures r.Ok? <==> 0 <= index <= |old(variables)|
      ensures r.Ok? ==>
                fresh(r.value) && r.value.name == name && r.value.kind == List
                && r.value.content == Values(values)
                && variables == InsertAt(old(variables), index, r.value)
      ensures r.Thrown? ==> r.failure == IndexOutOfBounds(index) && variables == old(variables)
    {
      r := CreateVariable(index, name, List, Values(values));
    }

    method CreateDictionaryVariable(index: int, name: string, items: seq<(string, string)>)
      returns (r: Outcome<Variable>)
      modifies this
      ensures r.Ok? <==> 0 <= index <= |old(variables)|
      ensures r.Ok? ==>
                fresh(r.value) && r.value.name == name && r.value.kind == Dictionary
                && r.value.content == Items(items)
                && variables == InsertAt(old(variables), index, r.value)
      ensures r.Thrown? ==> r.failure == IndexOutOfBounds(index) && variables == old(variables)
    {
      r := CreateVariable(index, name, Dictionary, Items(items));
    }
  }

  /** The editor's wrapper of one variable: its parent section and the
      declaration it stands for. */
  class RobotVariable {
    var parent: RobotVariablesSection?
    const linked: Variable

    constructor (parent: RobotVariablesSection?, linked: Variable)
      ensures this.parent == parent && this.linked == linked
    {
      this.parent := parent;
      this.linked := linked;
    }

    method SetParent(parent: RobotVariablesSection?)
      modifies this
      ensures this.parent == parent
    {
      this.parent := parent;
    }
  }

  /** The declarations a list of wrappers stands for, position by position. */
  function Links(ws: seq<RobotVariable>): (r: seq<Variable>)
    ensures |r| == |ws|
  {
    if ws == [] then [] else [ws[0].linked] + Links(ws[1..])
  }

  /** The declaration at position `i` is the one the wrapper at `i` links. */
  lemma {:induction false} LinksAt(ws: seq<RobotVariable>, i: nat)
    requires i < |ws|
    ensures Links(ws)[i] == ws[i].linked
  {
    if i > 0 {
      LinksAt(ws[1..], i - 1);
    }
  }

  /** The links of two runs of wrappers are the links of each, in order. */
  lemma {:induction false} LinksAppend(a: seq<RobotVariable>, b: seq<RobotVariable>)
    ensures Links(a + b) == Links(a) + Links(b)
  {
    if a == [] {
      assert a + b == b;
    } else {
      assert (a + b)[1..] == a[1..] + b;
      LinksAppend(a[1..], b);
    }
  }

  /** Inserting a wrapper at `i` inserts its declaration at `i` of the links:
      the property that keeps the children aligned with the table. */
  lemma LinksInsertAt(ws: seq<RobotVariable>, i: nat, w: RobotVariable)
    requires i <= |ws|
    ensures Links(InsertAt(ws, i, w)) == InsertAt(Links(ws), i, w.linked)
  {
    assert ws == ws[..i] + ws[i..];
    LinksAppend(ws[..i], ws[i..]);
    LinksAppend(ws[..i], [w]);
    LinksAppend(ws[..i] + [w], ws[i..]);
    assert Links([w]) == [w.linked] + Links([]);
    assert Links(ws)[..i] == Links(ws[..i]);
    assert Links(ws)[i..] == Links(ws[i..]);
  }

  class RobotVariablesSection {
    const name: string
    const table: VariableTable
    var elements: seq<RobotVariable>

    /** The children stand for the table's declarations, one each and in the
        table's order, and each child names this section as its parent. */
    ghost predicate Valid()
      reads this, table, elements
    {
      Links(elements) == table.variables &&
      forall e :: e in elements ==> e.parent == this
    }

    constructor (table: VariableTable)
      ensures this.name == SectionName && this.table == table && elements == []
    {
      this.name := SectionName;
      this.table := table;
      this.elements := [];
    }

    /** Appends one fresh child per declaration of the table, in its order. */
    method Link()
      modifies this
      ensures |elements| == |old(elements)| + |table.variables|
      ensures elements[..|old(elements)|] == old(elements)
      ensures Links(elements) == Links(old(elements)) + table.variables
      ensures forall e :: e in elements[|old(elements)|..] ==> fresh(e) && e.parent == this
      ensures old(elements) == [] ==> Valid()
    {
      var variables := table.variables;
      for n := 0 to |variables|
        invariant |elements| == |old(elements)| + n
        invariant elements[..|old(elements)|] == old(elements)
        invariant Links(elements) == Links(old(elements)) + variables[..n]
        invariant forall e :: e in elements[|old(elements)|..] ==> fresh(e) && e.parent == this
      {
        var variable := new RobotVariable(this, variables[n]);
        LinksAppend(elements, [variable]);
        assert Links([variable]) == [variable.linked] + Links([]);
        assert variables[..n + 1] == variables[..n] + [variables[n]];
        assert (elements + [variable])[|old(elements)|..] == elements[|old(elements)|..] + [variable];
        elements := elements + [variable];
      }
    }

    /** Creates a variable of kind `kind` at `index` of the table and its
        wrapper at the same index of the children. */
    method CreateVariableAt(index: int, kind: VariableType, name: string)
      returns (r: Outcome<RobotVariable>)
      requires Valid()
      modifies this, table
      ensures Valid()
      ensures InitialContent(kind).None? ==>
                r == Thrown(IllegalArgument("Unable to create variable of type " + TypeName(kind)))
      ensures InitialContent(kind).Some? && !(0 <= index <= |old(elements)|) ==>
                r == Thrown(IndexOutOfBounds(index))
      ensures r.Ok? <==> InitialContent(kind).Some? && 0 <= index <= |old(elements)|
      ensures r.Thrown? ==> elements == old(elements) && table.variables == old(table.variables)
      ensures r.Ok? ==>
                fresh(r.value) && fresh(r.value.linked) && r.value.parent == this
                && r.value.linked.name == name && r.value.linked.kind == kind
                && r.value.linked.content == InitialContent(kind).value
                && elements == InsertAt(old(elements), index, r.value)
                && table.variables == InsertAt(old(table.variables), index, r.value.linked)
    {
      var created: Outcome<Variable>;
      if kind == Scalar {
        created := table.CreateScalarVariable(index, name, []);
      } else if kind == List {
        created := table.CreateListVariable(index, name, []);
      } else if kind == Dictionary {
        created := table.CreateDictionaryVariable(index, name, []);
      } else {
        return Thrown(IllegalArgument("Unable to create variable of type " + TypeName(kind)));
      }
      if created.Thrown? {
        return Thrown(created.failure);
      }
      var variable := new RobotVariable(this, created.value);
      LinksInsertAt(elements, index, variable);
      elements := InsertAt(elements, index, variable);
      r := Ok(variable);
    }

    /** Creates a variable of kind `kind` after all existing ones. */
    method CreateVariable(kind: VariableType, name: string) returns (r: Outcome<RobotVariable>)
      requires Valid()
      modifies this, table
      ensures Valid()
      ensures r.Ok? <==> InitialContent(kind).Some?
      ensures r.Thrown? ==>
                r.failure == IllegalArgument("Unable to create variable of type " + TypeName(kind))
                && elements == old(elements) && table.variables == old(table.variables)
      ensures r.Ok? ==>
                fresh(r.value) && fresh(r.value.linked) && r.value.parent == this
                && r.value.linked.name == name && r.value.linked.kind == kind
                && r.value.linked.content == InitialContent(kind).value
                && elements == old(elements) + [r.value]
                && table.variables == old(table.variables) + [r.value.linked]
    {
      ghost var before, declared := elements, table.variables;
      r := CreateVariableAt(|elements|, kind, name);
      if r.Ok? {
        InsertAtEnd(before, r.value);
        InsertAtEnd(declared, r.value.linked);
      }
    }

    /** Re-parents `v` to this section and inserts it, and its declaration,
        at `index` of the children and of the table. The parent is set before
        the insertion that may throw. */
    method AddVariableAt(index: int, v: RobotVariable) returns (r: Outcome<()>)
      requires Valid()
      modifies this, table, v
      ensures Valid()
      ensures v.parent == this
      ensures r.Ok? <==> 0 <= index <= |old(elements)|
      ensures r.Ok? ==>
                elements == InsertAt(old(elements), index, v)
                && table.variables == InsertAt(old(table.variables), index, v.linked)
      ensures r.Thrown? ==>
                r.failure == IndexOutOfBounds(index)
                && elements == old(elements) && table.variables == old(table.variables)
    {
      v.SetParent(this);
      if !(0 <= index <= |elements|) {
        return Thrown(IndexOutOfBounds(index));
      }
      LinksInsertAt(elements, index, v);
      elements := InsertAt(elements, index, v);
      var added := table.AddVariable(index, v.linked);
      r := Ok(());
    }

    /** Adds `v` after all existing children. */
    method AddVariable(v: RobotVariable)
      requires Valid()
      modifies this, table, v
      ensures Valid()
      ensures v.parent == this
      ensures elements == old(elements) + [v]
      ensures table.variables == old(table.variables) + [v.linked]
    {
      InsertAtEnd(elements, v);
      InsertAtEnd(table.variables, v.linked);
      var added := AddVariableAt(|elements|, v);
    }
  }
}
