/** Facts about the text the printer writes: a print call only appends, and
    what it appends does not depend on what the stream already holds; an
    all-string list is its elements joined by commas; PrintList keeps the
    OBJECT entries only, in order; and the layouts of a few concrete blocks. */
module XcodePrinting {
  import opened XcodeEscaping
  import opened XcodeObjects

  // ---------------------------------------------------------------------
  // Printing appends, independently of the text already written
  // ---------------------------------------------------------------------

  lemma ListItemAppend(out: string, list: seq<XcodeObject>, i: nat, level: nat,
                       separator: string, factor: nat)
    requires i < |list|
    ensures WriteListItem(out, list, i, level, separator, factor) ==
            out + WriteListItem("", list, i, level, separator, factor)
  {
    var element := list[i];
    if element.TypeValue == String {
      var quoted := Quoted(element.Str);
      EmptyAppend(quoted);
      Assoc(out, quoted, ",");
    } else {
      var tabs := Tabs(Scaled(level + 1, factor));
      EmptyAppend(tabs);
      Assoc(out, tabs, element.Id);
      Assoc(out, tabs + element.Id, element.Comment);
      Assoc(out, tabs + element.Id + element.Comment, ",");
      Assoc(out, tabs + element.Id + element.Comment + ",", separator);
    }
  }

  lemma {:induction false} ListItemsAppend(out: string, list: seq<XcodeObject>, n: nat, level: nat,
                                           separator: string, factor: nat)
    requires n <= |list|
    ensures WriteListItems(out, list, n, level, separator, factor) ==
            out + WriteListItems("", list, n, level, separator, factor)
  {
    if n > 0 {
      var before := WriteListItems("", list, n - 1, level, separator, factor);
      var item := WriteListItem("", list, n - 1, level, separator, factor);
      assert WriteListItems(out, list, n, level, separator, factor) ==
             WriteListItem(WriteListItems(out, list, n - 1, level, separator, factor), list, n - 1, level, separator, factor);
      assert WriteListItems(out, list, n - 1, level, separator, factor) == out + before by {
        ListItemsAppend(out, list, n - 1, level, separator, factor);
      }
      assert WriteListItem(out + before, list, n - 1, level, separator, factor) == out + before + item by {
        ListItemAppend(out + before, list, n - 1, level, separator, factor);
      }
      assert WriteListItems("", list, n, level, separator, factor) == before + item by {
        ListItemAppend(before, list, n - 1, level, separator, factor);
      }
      Assoc(out, before, item);
    }
  }

  lemma Assoc(a: string, b: string, c: string)
    ensures a + b + c == a + (b + c)
  {
  }

  lemma EmptyAppend(a: string)
    ensures "" + a == a
  {
  }

  lemma ListValueAppend(out: string, level: nat, separator: string, factor: nat,
                        name: string, obj: XcodeObject, parentIsGroup: bool)
    ensures WriteListValue(out, level, separator, factor, name, obj, parentIsGroup) ==
            out + WriteListValue("", level, separator, factor, name, obj, parentIsGroup)
  {
    EmptyAppend(name);
    var head := name + " = (";
    Assoc(out, name, " = (");
    var started := if parentIsGroup then head else head + separator;
    Assoc(out, head, separator);
    var text := WriteListItems("", obj.List, |obj.List|, level, separator, factor);
    ListItemsAppend(out + started, obj.List, |obj.List|, level, separator, factor);
    ListItemsAppend(started, obj.List, |obj.List|, level, separator, factor);
    Assoc(out, started, text);
    var items := started + text;
    var tabs := Tabs(Scaled(level, factor));
    Assoc(out, items, tabs);
    var closing := if parentIsGroup then items else items + tabs;
    Assoc(out, closing, ");");
    Assoc(out, closing + ");", separator);
  }

  lemma RefValueAppend(out: string, separator: string, name: string, obj: XcodeObject)
    requires obj.Obj != null
    ensures WriteRefValue(out, separator, name, obj) == out + WriteRefValue("", separator, name, obj)
  {
    var quoted := Quoted(name);
    EmptyAppend(quoted);
    Assoc(out, quoted, " = ");
    Assoc(out, quoted + " = ", obj.Obj.Id);
    var target := quoted + " = " + obj.Obj.Id;
    Assoc(out, target, obj.Obj.Comment);
    var commented :=
      if obj.Obj.Comment != "" && name != RemoteGlobalIdName then target + obj.Obj.Comment else target;
    Assoc(out, commented, ";");
    Assoc(out, commented + ";", separator);
  }

  lemma StringValueAppend(out: string, separator: string, name: string, obj: XcodeObject)
    ensures WriteStringValue(out, separator, name, obj) == out + WriteStringValue("", separator, name, obj)
  {
    var quoted := Quoted(name);
    EmptyAppend(quoted);
    Assoc(out, quoted, " = ");
    Assoc(out, quoted + " = ", Quoted(obj.Str));
    Assoc(out, quoted + " = " + Quoted(obj.Str), ";");
    Assoc(out, quoted + " = " + Quoted(obj.Str) + ";", separator);
  }

  lemma {:induction false} AttributeAppend(out: string, level: nat, separator: string, factor: nat,
                                           name: string, obj: XcodeObject, parentIsGroup: bool)
    requires obj.Valid() && obj.Printable()
    ensures WriteAttribute(out, level, separator, factor, name, obj, parentIsGroup) ==
            out + WriteAttribute("", level, separator, factor, name, obj, parentIsGroup)
    decreases obj.Repr, 3
  {
    var tabs := Tabs(Scaled(level, factor));
    assert "" + tabs == tabs;
    match obj.TypeValue
    case ObjectList =>
      ListValueAppend(out + tabs, level, separator, factor, name, obj, parentIsGroup);
      ListValueAppend(tabs, level, separator, factor, name, obj, parentIsGroup);
    case AttributeGroup =>
      GroupValueAppend(out + tabs, level, separator, factor, name, obj);
      GroupValueAppend(tabs, level, separator, factor, name, obj);
    case ObjectRef =>
      RefValueAppend(out + tabs, separator, name, obj);
      RefValueAppend(tabs, separator, name, obj);
    case String =>
      StringValueAppend(out + tabs, separator, name, obj);
      StringValueAppend(tabs, separator, name, obj);
    case Object =>
  }

  lemma {:induction false} GroupValueAppend(out: string, level: nat, separator: string, factor: nat,
                                            name: string, obj: XcodeObject)
    requires obj.Valid() && obj.Printable() && obj.TypeValue == AttributeGroup
    ensures WriteGroupValue(out, level, separator, factor, name, obj) ==
            out + WriteGroupValue("", level, separator, factor, name, obj)
    decreases obj.Repr, 2
  {
    EmptyAppend(name);
    var head := name + " = {";
    Assoc(out, name, " = {");
    var started := if separator == "\n" then head + separator else head;
    Assoc(out, head, separator);
    var text := WriteGroupEntries("", level, separator, factor, obj, |obj.Attributes|);
    GroupEntriesAppend(out + started, level, separator, factor, obj, |obj.Attributes|);
    GroupEntriesAppend(started, level, separator, factor, obj, |obj.Attributes|);
    Assoc(out, started, text);
    var entries := started + text;
    var tabs := Tabs(Scaled(level, factor));
    Assoc(out, entries, tabs);
    Assoc(out, entries + tabs, "};");
    Assoc(out, entries + tabs + "};", separator);
  }

  lemma {:induction false} GroupEntriesAppend(out: string, level: nat, separator: string, factor: nat,
                                              group: XcodeObject, n: nat)
    requires group.Valid() && group.Printable() && group.TypeValue == AttributeGroup
    requires n <= |group.Attributes|
    ensures WriteGroupEntries(out, level, separator, factor, group, n) ==
            out + WriteGroupEntries("", level, separator, factor, group, n)
    decreases group.Repr, 1, n
  {
    if n > 0 {
      var before := WriteGroupEntries("", level, separator, factor, group, n - 1);
      var entry := group.Attributes[n - 1];
      var child := Scaled(level + 1, factor);
      var text := WriteAttribute("", child, separator, factor, entry.0, entry.1, true);
      assert WriteGroupEntries(out, level, separator, factor, group, n) ==
             WriteAttribute(WriteGroupEntries(out, level, separator, factor, group, n - 1),
                            child, separator, factor, entry.0, entry.1, true);
      assert WriteGroupEntries("", level, separator, factor, group, n) ==
             WriteAttribute(before, child, separator, factor, entry.0, entry.1, true);
      GroupEntriesAppend(out, level, separator, factor, group, n - 1);
      AttributeAppend(out + before, child, separator, factor, entry.0, entry.1, true);
      AttributeAppend(before, child, separator, factor, entry.0, entry.1, true);
      Assoc(out, before, text);
    }
  }

  lemma {:induction false} MembersAppend(out: string, o: XcodeObject, n: nat, separator: string, factor: nat)
    requires o.Valid() && o.PrintableAsObject() && n <= |o.Attributes|
    ensures WriteMembers(out, o, n, separator, factor) == out + WriteMembers("", o, n, separator, factor)
  {
    if n > 0 {
      var before := WriteMembers("", o, n - 1, separator, factor);
      var prev := WriteMembers(out, o, n - 1, separator, factor);
      var entry := o.Attributes[n - 1];
      assert prev == out + before by {
        MembersAppend(out, o, n - 1, separator, factor);
      }
      if entry.0 == IsaName {
        assert WriteMembers(out, o, n, separator, factor) == prev;
        assert WriteMembers("", o, n, separator, factor) == before;
      } else {
        var inGroup := o.TypeValue == AttributeGroup;
        var text := WriteAttribute("", 3, separator, factor, entry.0, entry.1, inGroup);
        assert WriteMembers(out, o, n, separator, factor) ==
               WriteAttribute(prev, 3, separator, factor, entry.0, entry.1, inGroup);
        assert WriteMembers("", o, n, separator, factor) ==
               WriteAttribute(before, 3, separator, factor, entry.0, entry.1, inGroup);
        assert WriteAttribute(out + before, 3, separator, factor, entry.0, entry.1, inGroup) ==
               out + before + text by {
          AttributeAppend(out + before, 3, separator, factor, entry.0, entry.1, inGroup);
        }
        assert WriteAttribute(before, 3, separator, factor, entry.0, entry.1, inGroup) == before + text by {
          AttributeAppend(before, 3, separator, factor, entry.0, entry.1, inGroup);
        }
        Assoc(out, before, text);
      }
    }
  }

  lemma ObjectAppend(out: string, o: XcodeObject)
    requires o.Valid() && o.PrintableAsObject()
    ensures WriteObject(out, o) == out + WriteObject("", o)
  {
    var separator := if IsCompact(o) then " " else "\n";
    var factor := if IsCompact(o) then 0 else 1;
    EmptyAppend(Tabs(2));
    Assoc(out, Tabs(2), o.Id);
    Assoc(out, Tabs(2) + o.Id, o.Comment);
    Assoc(out, Tabs(2) + o.Id + o.Comment, " = {");
    var head := Tabs(2) + o.Id + o.Comment + " = {";
    Assoc(out, head, separator);
    var started := if separator == "\n" then head + separator else head;
    Assoc(out, started, Tabs(3 * factor));
    Assoc(out, started + Tabs(3 * factor), "isa = ");
    Assoc(out, started + Tabs(3 * factor) + "isa = ", TypeName(o.IsA));
    Assoc(out, started + Tabs(3 * factor) + "isa = " + TypeName(o.IsA), ";");
    Assoc(out, started + Tabs(3 * factor) + "isa = " + TypeName(o.IsA) + ";", separator);
    var isa := started + Tabs(3 * factor) + "isa = " + TypeName(o.IsA) + ";" + separator;
    var text := WriteMembers("", o, |o.Attributes|, separator, factor);
    MembersAppend(out + isa, o, |o.Attributes|, separator, factor);
    MembersAppend(isa, o, |o.Attributes|, separator, factor);
    Assoc(out, isa, text);
    var members := isa + text;
    Assoc(out, members, Tabs(2 * factor));
    Assoc(out, members + Tabs(2 * factor), "};\n");
  }

  lemma {:induction false} ObjectsAppend(out: string, objs: seq<XcodeObject>, n: nat)
    requires n <= |objs| && AllPrintable(objs)
    ensures WriteObjects(out, objs, n) == out + WriteObjects("", objs, n)
  {
    if n > 0 {
      var before := WriteObjects("", objs, n - 1);
      ObjectsAppend(out, objs, n - 1);
      if objs[n - 1].TypeValue == Object {
        ObjectAppend(out + before, objs[n - 1]);
        ObjectAppend(before, objs[n - 1]);
        Assoc(out, before, WriteObject("", objs[n - 1]));
      }
    }
  }

  // ---------------------------------------------------------------------
  // Inline string lists
  // ---------------------------------------------------------------------

  /** The parts with `sep` between consecutive ones and nowhere else. */
  function Join(parts: seq<string>, sep: string): string
  {
    if |parts| == 0 then ""
    else if |parts| == 1 then parts[0]
    else Join(parts[..|parts| - 1], sep) + sep + parts[|parts| - 1]
  }

  /** The printed forms of the string values of the first n elements. */
  function QuotedValues(list: seq<XcodeObject>, n: nat): (r: seq<string>)
    requires n <= |list|
    reads list
    ensures |r| == n
  {
    if n == 0 then [] else QuotedValues(list, n - 1) + [Quoted(list[n - 1].Str)]
  }

  /** Before the last element every string is followed by a comma. */
  lemma {:induction false} StringItemsBeforeLast(list: seq<XcodeObject>, n: nat, level: nat,
                                                 separator: string, factor: nat)
    requires n < |list|
    requires forall i :: 0 <= i < |list| ==> list[i].TypeValue == String
    ensures WriteListItems("", list, n, level, separator, factor) ==
            Join(QuotedValues(list, n), ",") + (if n == 0 then "" else ",")
  {
    if n > 0 {
      StringItemsBeforeLast(list, n - 1, level, separator, factor);
      var parts := QuotedValues(list, n);
      assert parts[..n - 1] == QuotedValues(list, n - 1);
      if n == 1 {
        EmptyAppend(Quoted(list[0].Str));
      }
    }
  }

  /** A list of strings prints its values joined by commas: a comma between
      consecutive values and none after the last one, and no separator. */
  lemma StringListIsJoined(list: seq<XcodeObject>, level: nat, separator: string, factor: nat)
    requires forall i :: 0 <= i < |list| ==> list[i].TypeValue == String
    ensures WriteListItems("", list, |list|, level, separator, factor) ==
            Join(QuotedValues(list, |list|), ",")
  {
    var n := |list|;
    if n > 0 {
      var k := n - 1;
      var last := Quoted(list[k].Str);
      var before := WriteListItems("", list, k, level, separator, factor);
      assert WriteListItems("", list, n, level, separator, factor) ==
             WriteListItem(before, list, k, level, separator, factor);
      assert WriteListItem(before, list, k, level, separator, factor) == before + last by {
        assert list[k].TypeValue == String;
      }
      var parts := QuotedValues(list, n);
      assert parts[..k] == QuotedValues(list, k) && parts[k] == last;
      assert before == Join(parts[..k], ",") + (if k == 0 then "" else ",") by {
        StringItemsBeforeLast(list, k, level, separator, factor);
      }
      if k == 0 {
        assert before == "";
        EmptyAppend(last);
      } else {
        assert Join(parts, ",") == Join(parts[..k], ",") + "," + last;
      }
    }
  }

  // ---------------------------------------------------------------------
  // Attribute groups
  // ---------------------------------------------------------------------

  /** A STRING entry of a group is written after the entries before it, one
      level deeper than the group: its indent, then the quoted name and value. */
  lemma GroupStringEntry(out: string, level: nat, separator: string, factor: nat,
                         group: XcodeObject, i: nat)
    requires group.Valid() && group.Printable() && group.TypeValue == AttributeGroup
    requires i < |group.Attributes| && group.Attributes[i].1 != null
    requires group.Attributes[i].1.TypeValue == String
    ensures WriteGroupEntries(out, level, separator, factor, group, i + 1) ==
            WriteGroupEntries(out, level, separator, factor, group, i) +
            Tabs(Scaled(Scaled(level + 1, factor), factor)) + Quoted(group.Attributes[i].0) +
            " = " + Quoted(group.Attributes[i].1.Str) + ";" + separator
  {
    var entry := group.Attributes[i];
    assert entry.1.Valid() && entry.1.Printable();
  }

  /** A list of strings inside a group stays on the entry's line: no
      separator after the parenthesis, the values joined by commas, and no
      indent before it closes. */
  lemma GroupStringListEntry(out: string, level: nat, separator: string, factor: nat,
                             group: XcodeObject, i: nat)
    requires group.Valid() && group.Printable() && group.TypeValue == AttributeGroup
    requires i < |group.Attributes| && group.Attributes[i].1 != null
    requires group.Attributes[i].1.TypeValue == ObjectList
    requires forall k :: 0 <= k < |group.Attributes[i].1.List| ==>
      group.Attributes[i].1.List[k].TypeValue == String
    ensures WriteGroupEntries(out, level, separator, factor, group, i + 1) ==
            WriteGroupEntries(out, level, separator, factor, group, i) +
            Tabs(Scaled(Scaled(level + 1, factor), factor)) + group.Attributes[i].0 + " = (" +
            Join(QuotedValues(group.Attributes[i].1.List, |group.Attributes[i].1.List|), ",") +
            ");" + separator
  {
    var entry := group.Attributes[i];
    assert entry.1.Valid() && entry.1.Printable();
    var list := entry.1.List;
    var child := Scaled(level + 1, factor);
    var prev := WriteGroupEntries(out, level, separator, factor, group, i);
    var head := prev + Tabs(Scaled(child, factor)) + entry.0 + " = (";
    var items := WriteListItems("", list, |list|, child, separator, factor);
    assert WriteGroupEntries(out, level, separator, factor, group, i + 1) ==
           WriteListItems(head, list, |list|, child, separator, factor) + ");" + separator;
    assert WriteListItems(head, list, |list|, child, separator, factor) == head + items by {
      ListItemsAppend(head, list, |list|, child, separator, factor);
    }
    assert items == Join(QuotedValues(list, |list|), ",") by {
      StringListIsJoined(list, child, separator, factor);
    }
  }

  // ---------------------------------------------------------------------
  // The objects section
  // ---------------------------------------------------------------------

  /** The OBJECT entries of objs, in their order. */
  function OnlyObjects(objs: seq<XcodeObject>): (r: seq<XcodeObject>)
    reads objs
    ensures forall i :: 0 <= i < |r| ==> r[i].TypeValue == Object && r[i] in objs
  {
    if objs == [] then []
    else
      var last := objs[|objs| - 1];
      OnlyObjects(objs[..|objs| - 1]) + (if last.TypeValue == Object then [last] else [])
  }

  lemma OnlyObjectsPrintable(objs: seq<XcodeObject>)
    requires AllPrintable(objs)
    ensures AllPrintable(OnlyObjects(objs))
  {
    var r := OnlyObjects(objs);
    forall i | 0 <= i < |r|
      ensures r[i].Valid() && r[i].PrintableAsObject()
    {
      var j :| 0 <= j < |objs| && objs[j] == r[i];
    }
  }

  /** What the first n entries print depends on those entries only. */
  lemma {:induction false} ObjectsOfPrefix(out: string, objs: seq<XcodeObject>, more: seq<XcodeObject>, n: nat)
    requires n <= |objs| && AllPrintable(objs) && AllPrintable(objs + more)
    ensures WriteObjects(out, objs + more, n) == WriteObjects(out, objs, n)
  {
    if n > 0 {
      ObjectsOfPrefix(out, objs, more, n - 1);
      assert (objs + more)[n - 1] == objs[n - 1];
    }
  }

  /** PrintList prints the OBJECT entries, in order, and skips every other entry. */
  lemma {:induction false} ObjectListSkipsOthers(out: string, objs: seq<XcodeObject>)
    requires AllPrintable(objs)
    ensures AllPrintable(OnlyObjects(objs))
    ensures WriteObjects(out, objs, |objs|) == WriteObjects(out, OnlyObjects(objs), |OnlyObjects(objs)|)
    decreases |objs|
  {
    OnlyObjectsPrintable(objs);
    if objs != [] {
      var n := |objs| - 1;
      var x := objs[n];
      var front := objs[..n];
      assert objs == front + [x];
      assert AllPrintable(front);
      ObjectListSkipsOthers(out, front);
      var r := OnlyObjects(front);
      var w := WriteObjects(out, r, |r|);
      ObjectsOfPrefix(out, front, [x], n);
      assert WriteObjects(out, objs, n) == w;
      if x.TypeValue == Object {
        assert OnlyObjects(objs) == r + [x];
        ObjectsOfPrefix(out, r, [x], |r|);
        assert WriteObjects(out, r + [x], |r|) == w;
        assert WriteObjects(out, objs, |objs|) == WriteObject(w, x);
        assert WriteObjects(out, r + [x], |r| + 1) == WriteObject(w, x);
      } else {
        assert OnlyObjects(objs) == r + [];
        assert r + [] == r;
        assert WriteObjects(out, objs, |objs|) == w;
      }
    }
  }

  lemma ObjectListKeepsOnlyObjects(out: string, objs: seq<XcodeObject>)
    requires AllPrintable(objs)
    ensures AllPrintable(OnlyObjects(objs))
    ensures WriteObjectList(out, objs) == WriteObjectList(out, OnlyObjects(objs))
  {
    ObjectListSkipsOthers(out + Tabs(1) + "objects = {\n", objs);
  }

  // ---------------------------------------------------------------------
  // Concrete blocks
  // ---------------------------------------------------------------------

  /** A non-empty word of plain characters without a slash is printed bare. */
  lemma PlainWord(s: string)
    requires |s| > 0 && forall i :: 0 <= i < |s| ==> IsPlainChar(s[i]) && s[i] != '/'
    ensures Quoted(s) == s
  {
    PrintedAsIs(s);
  }

  /** The expanded layout: the Id line, the "isa" line and each attribute on
      lines of their own, indented by three tabs, and the closing brace on
      a line indented by two. */
  lemma ExpandedLayout(o: XcodeObject)
    requires o.Valid() && o.PrintableAsObject() && !IsCompact(o)
    ensures WriteObject("", o) ==
      Tabs(2) + o.Id + o.Comment + " = {\n" +
      Tabs(3) + "isa = " + TypeName(o.IsA) + ";\n" +
      WriteMembers("", o, |o.Attributes|, "\n", 1) +
      Tabs(2) + "};\n"
  {
    var line := Tabs(2) + o.Id + o.Comment;
    EmptyAppend(Tabs(2));
    Assoc(line, " = {", "\n");
    assert " = {" + "\n" == " = {\n";
    var isaLine := line + " = {\n" + Tabs(3) + "isa = " + TypeName(o.IsA);
    Assoc(isaLine, ";", "\n");
    assert ";" + "\n" == ";\n";
    MembersAppend(isaLine + ";\n", o, |o.Attributes|, "\n", 1);
  }

  /** The compact layout: the whole block on one line, no indentation inside
      it, and a single space after each attribute; the two leading tabs stay. */
  lemma CompactLayout(o: XcodeObject)
    requires o.Valid() && o.PrintableAsObject() && IsCompact(o)
    ensures WriteObject("", o) ==
      Tabs(2) + o.Id + o.Comment + " = {" +
      "isa = " + TypeName(o.IsA) + "; " +
      WriteMembers("", o, |o.Attributes|, " ", 0) +
      "};\n"
  {
    var line := Tabs(2) + o.Id + o.Comment + " = {";
    EmptyAppend(Tabs(2));
    assert Tabs(0) == "";
    assert line + Tabs(0) == line;
    var isaLine := line + "isa = " + TypeName(o.IsA);
    Assoc(isaLine, ";", " ");
    assert ";" + " " == "; ";
    MembersAppend(isaLine + "; ", o, |o.Attributes|, " ", 0);
    var members := WriteMembers("", o, |o.Attributes|, " ", 0);
    assert isaLine + "; " + members + Tabs(0) == isaLine + "; " + members;
  }

  /** A group object named "foo" in the expanded layout: the isa entry is
      written once, first, and the name on a line of its own, unquoted. */
  lemma GroupBlock(out: string, o: XcodeObject, value: XcodeObject)
    requires o.Valid() && o.PrintableAsObject()
    requires o.TypeValue == Object && o.IsA == PBXGroup && o.Comment == ""
    requires o.Attributes == [(IsaName, null), ("name", value)]
    requires value.TypeValue == String && value.Str == "foo"
    ensures WriteObject(out, o) ==
      out + Tabs(2) + o.Id + " = {" + "\n" +
      Tabs(3) + "isa = " + "PBXGroup" + ";" + "\n" +
      Tabs(3) + "name" + " = " + "foo" + ";" + "\n" +
      Tabs(2) + "};\n"
  {
    assert !IsCompact(o);
    assert out + Tabs(2) + o.Id + o.Comment == out + Tabs(2) + o.Id;
    assert TypeName(o.IsA) == "PBXGroup";
    assert 3 * 1 == 3 && 2 * 1 == 2 && Scaled(3, 1) == 3;
    var isa := out + Tabs(2) + o.Id + " = {" + "\n" + Tabs(3) + "isa = " + "PBXGroup" + ";" + "\n";
    GroupNameLine(isa, o, value);
  }

  /** The members of that group: the isa entry is skipped, and the name is
      written at the attribute indent of three tabs. */
  lemma GroupNameLine(out: string, o: XcodeObject, value: XcodeObject)
    requires o.Valid() && o.PrintableAsObject() && o.TypeValue == Object
    requires o.Attributes == [(IsaName, null), ("name", value)]
    requires value.TypeValue == String && value.Str == "foo"
    ensures WriteMembers(out, o, |o.Attributes|, "\n", 1) ==
      out + Tabs(3) + "name" + " = " + "foo" + ";" + "\n"
  {
    assert Scaled(3, 1) == 3;
    assert WriteMembers(out, o, 1, "\n", 1) == out;
    assert o.Attributes[1].1 == value && value.Valid() && value.Printable();
    assert WriteMembers(out, o, 2, "\n", 1) == WriteAttribute(out, 3, "\n", 1, "name", value, false);
    assert WriteAttribute(out, 3, "\n", 1, "name", value, false) ==
           WriteStringValue(out + Tabs(3), "\n", "name", value);
    assert Quoted("name") == "name" && Quoted("foo") == "foo" by {
      PlainWord("name");
      PlainWord("foo");
    }
  }

  /** A list of two strings outside a group: the opening line, the values
      inline right after it and joined by a comma, then the closing
      parenthesis on a line indented like the attribute. */
  lemma TwoStringList(out: string, obj: XcodeObject, a: XcodeObject, b: XcodeObject)
    requires obj.List == [a, b]
    requires a.TypeValue == String && a.Str == "foo" && b.TypeValue == String && b.Str == "bar"
    ensures WriteListValue(out, 3, "\n", 1, "files", obj, false) ==
      out + "files" + " = (" + "\n" + "foo" + "," + "bar" + Tabs(3) + ");" + "\n"
  {
    var started := out + "files" + " = (" + "\n";
    assert WriteListItems(started, obj.List, 1, 3, "\n", 1) == started + Quoted("foo") + ",";
    assert WriteListItems(started, obj.List, 2, 3, "\n", 1) == started + Quoted("foo") + "," + Quoted("bar");
    assert Scaled(3, 1) == 3;
    assert Quoted("foo") == "foo" && Quoted("bar") == "bar" by {
      PlainWord("foo");
      PlainWord("bar");
    }
  }

  /** The same list inside an attribute group stays on one line. */
  lemma TwoStringListInGroup(out: string, obj: XcodeObject, a: XcodeObject, b: XcodeObject)
    requires obj.List == [a, b]
    requires a.TypeValue == String && a.Str == "foo" && b.TypeValue == String && b.Str == "bar"
    ensures WriteListValue(out, 4, "\n", 1, "files", obj, true) ==
      out + "files" + " = (" + "foo" + "," + "bar" + ");" + "\n"
  {
    var started := out + "files" + " = (";
    assert WriteListItems(started, obj.List, 1, 4, "\n", 1) == started + Quoted("foo") + ",";
    assert WriteListItems(started, obj.List, 2, 4, "\n", 1) == started + Quoted("foo") + "," + Quoted("bar");
    assert Quoted("foo") == "foo" && Quoted("bar") == "bar" by {
      PlainWord("foo");
      PlainWord("bar");
    }
  }

  /** A list of two non-string nodes: each on a line of its own, one level
      deeper, as its Id and comment followed by a comma, the last included. */
  lemma TwoObjectList(out: string, obj: XcodeObject, x: XcodeObject, y: XcodeObject)
    requires obj.List == [x, y] && x.TypeValue != String && y.TypeValue != String
    ensures WriteListValue(out, 3, "\n", 1, "buildPhases", obj, false) ==
      out + "buildPhases" + " = (" + "\n" +
      Tabs(4) + x.Id + x.Comment + "," + "\n" +
      Tabs(4) + y.Id + y.Comment + "," + "\n" +
      Tabs(3) + ");" + "\n"
  {
    var started := out + "buildPhases" + " = (" + "\n";
    assert Scaled(3, 1) == 3 && Scaled(3 + 1, 1) == 4;
    var first := started + Tabs(4) + x.Id + x.Comment + "," + "\n";
    assert WriteListItems(started, obj.List, 1, 3, "\n", 1) == first;
    assert WriteListItems(started, obj.List, 2, 3, "\n", 1) ==
           first + Tabs(4) + y.Id + y.Comment + "," + "\n";
  }

  /** For the remoteGlobalIDString attribute the comment of the referenced
      node is never written: the text depends on its Id only. */
  lemma RemoteIdIgnoresComment(out: string, separator: string, obj: XcodeObject, other: XcodeObject)
    requires obj.Obj != null && other.Obj != null && obj.Obj.Id == other.Obj.Id
    ensures WriteRefValue(out, separator, RemoteGlobalIdName, obj) ==
            WriteRefValue(out, separator, RemoteGlobalIdName, other)
  {
  }

  /** For any other attribute the comment follows the Id (an empty comment adds nothing). */
  lemma RefShowsComment(out: string, separator: string, name: string, obj: XcodeObject)
    requires obj.Obj != null && name != RemoteGlobalIdName
    ensures WriteRefValue(out, separator, name, obj) ==
      out + Quoted(name) + " = " + obj.Obj.Id + obj.Obj.Comment + ";" + separator
  {
    if obj.Obj.Comment == "" {
      assert out + Quoted(name) + " = " + obj.Obj.Id + obj.Obj.Comment == out + Quoted(name) + " = " + obj.Obj.Id;
    }
  }

  /** A file reference in a format version above 15: the whole block on one
      line, a single space after each attribute, still behind two tabs. */
  lemma CompactFileReference(out: string, o: XcodeObject, path: XcodeObject)
    requires o.Valid() && o.PrintableAsObject()
    requires o.TypeValue == Object && o.IsA == PBXFileReference && o.Comment == ""
    requires o.Version > DefaultVersion
    requires o.Attributes == [(IsaName, null), ("path", path)]
    requires path.TypeValue == String && path.Str == "foo.c"
    ensures WriteObject(out, o) ==
      out + Tabs(2) + o.Id + " = {" + "isa = " + "PBXFileReference" + ";" + " " +
      "path" + " = " + "foo.c" + ";" + " " + "};\n"
  {
    assert IsCompact(o);
    assert out + Tabs(2) + o.Id + o.Comment == out + Tabs(2) + o.Id;
    assert TypeName(o.IsA) == "PBXFileReference";
    assert 3 * 0 == 0 && 2 * 0 == 0 && Scaled(3, 0) == 0;
    var head := out + Tabs(2) + o.Id + " = {";
    assert head + Tabs(0) == head;
    var isa := head + "isa = " + "PBXFileReference" + ";" + " ";
    FileReferencePathLine(isa, o, path);
    var members := isa + "path" + " = " + "foo.c" + ";" + " ";
    assert members + Tabs(0) == members;
  }

  /** The members of that file reference: the isa entry is skipped, and the
      path is written with no indent and a space after it. */
  lemma FileReferencePathLine(out: string, o: XcodeObject, path: XcodeObject)
    requires o.Valid() && o.PrintableAsObject() && o.TypeValue == Object
    requires o.Attributes == [(IsaName, null), ("path", path)]
    requires path.TypeValue == String && path.Str == "foo.c"
    ensures WriteMembers(out, o, |o.Attributes|, " ", 0) ==
      out + "path" + " = " + "foo.c" + ";" + " "
  {
    assert Scaled(3, 0) == 0 && out + Tabs(0) == out;
    assert WriteMembers(out, o, 1, " ", 0) == out;
    assert o.Attributes[1].1 == path && path.Valid() && path.Printable();
    assert WriteMembers(out, o, 2, " ", 0) == WriteAttribute(out, 3, " ", 0, "path", path, false);
    assert WriteAttribute(out, 3, " ", 0, "path", path, false) ==
           WriteStringValue(out, " ", "path", path);
    assert Quoted("path") == "path" && Quoted("foo.c") == "foo.c" by {
      PlainWord("path");
      PlainWord("foo.c");
    }
  }
}
