/** The node of the Xcode project-file object graph and its printer.

    A node carries every field of `cmXCodeObject` whatever its kind;
    its kind (TypeValue) decides which of them matter. The printer is
    specified by text functions (WriteAttribute, WriteObject, WriteObjectList
    and the functions they use), each mapping the text already written to the
    text after the operation, and implemented by methods that append to an
    output text and are proved to produce exactly that text. */
module XcodeObjects {
  import opened XcodeIds
  import opened XcodeEscaping

  /** The object categories, in the order of the PBXTypeNames table. */
  datatype PBXType =
    | PBXGroup | PBXBuildStyle | PBXProject | PBXHeadersBuildPhase
    | PBXSourcesBuildPhase | PBXFrameworksBuildPhase | PBXNativeTarget
    | PBXFileReference | PBXBuildFile | PBXContainerItemProxy
    | PBXTargetDependency | PBXShellScriptBuildPhase | PBXResourcesBuildPhase
    | PBXApplicationReference | PBXExecutableFileReference | PBXLibraryReference
    | PBXToolTarget | PBXLibraryTarget | PBXAggregateTarget
    | XCBuildConfiguration | XCConfigurationList | PBXCopyFilesBuildPhase
    | None

  /** The five node kinds. */
  datatype ObjectType = ObjectList | String | AttributeGroup | ObjectRef | Object

  const PBXTypeNames: seq<string> := [
    "PBXGroup", "PBXBuildStyle", "PBXProject", "PBXHeadersBuildPhase",
    "PBXSourcesBuildPhase", "PBXFrameworksBuildPhase", "PBXNativeTarget",
    "PBXFileReference", "PBXBuildFile", "PBXContainerItemProxy",
    "PBXTargetDependency", "PBXShellScriptBuildPhase", "PBXResourcesBuildPhase",
    "PBXApplicationReference", "PBXExecutableFileReference", "PBXLibraryReference",
    "PBXToolTarget", "PBXLibraryTarget", "PBXAggregateTarget",
    "XCBuildConfiguration", "XCConfigurationList", "PBXCopyFilesBuildPhase",
    "None"
  ]

  /** The enumerator's position, used to index PBXTypeNames. */
  function TypeIndex(t: PBXType): (i: nat)
    ensures i < |PBXTypeNames|
  {
    match t
    case PBXGroup => 0
    case PBXBuildStyle => 1
    case PBXProject => 2
    case PBXHeadersBuildPhase => 3
    case PBXSourcesBuildPhase => 4
    case PBXFrameworksBuildPhase => 5
    case PBXNativeTarget => 6
    case PBXFileReference => 7
    case PBXBuildFile => 8
    case PBXContainerItemProxy => 9
    case PBXTargetDependency => 10
    case PBXShellScriptBuildPhase => 11
    case PBXResourcesBuildPhase => 12
    case PBXApplicationReference => 13
    case PBXExecutableFileReference => 14
    case PBXLibraryReference => 15
    case PBXToolTarget => 16
    case PBXLibraryTarget => 17
    case PBXAggregateTarget => 18
    case XCBuildConfiguration => 19
    case XCConfigurationList => 20
    case PBXCopyFilesBuildPhase => 21
    case None => 22
  }

  function TypeName(t: PBXType): string
  {
    PBXTypeNames[TypeIndex(t)]
  }

  /** The length and the fourth character of a name, which already tell the
      table's names apart. */
  function NameKey(name: string): (int, char)
  {
    (|name|, if |name| > 3 then name[3] else ' ')
  }

  /** The category whose name has the given key. */
  function TypeOfKey(key: (int, char)): PBXType
  {
    match key
    case (8, 'G') => PBXGroup
    case (13, 'B') => PBXBuildStyle
    case (10, 'P') => PBXProject
    case (20, 'H') => PBXHeadersBuildPhase
    case (20, 'S') => PBXSourcesBuildPhase
    case (23, 'F') => PBXFrameworksBuildPhase
    case (15, 'N') => PBXNativeTarget
    case (16, 'F') => PBXFileReference
    case (12, 'B') => PBXBuildFile
    case (21, 'C') => PBXContainerItemProxy
    case (19, 'T') => PBXTargetDependency
    case (24, 'S') => PBXShellScriptBuildPhase
    case (22, 'R') => PBXResourcesBuildPhase
    case (23, 'A') => PBXApplicationReference
    case (26, 'E') => PBXExecutableFileReference
    case (19, 'L') => PBXLibraryReference
    case (13, 'T') => PBXToolTarget
    case (16, 'L') => PBXLibraryTarget
    case (18, 'A') => PBXAggregateTarget
    case (20, 'u') => XCBuildConfiguration
    case (19, 'o') => XCConfigurationList
    case (22, 'C') => PBXCopyFilesBuildPhase
    case _ => None
  }

  /** Every category can be read back from the name it is printed under. */
  lemma TypeOfTypeName(t: PBXType)
    ensures TypeOfKey(NameKey(TypeName(t))) == t
  {
    if TypeIndex(t) < 12 {
      TypeOfFirstNames(t);
    } else {
      TypeOfLastNames(t);
    }
  }

  /** The same for the first twelve entries of the table. */
  lemma TypeOfFirstNames(t: PBXType)
    requires TypeIndex(t) < 12
    ensures TypeOfKey(NameKey(TypeName(t))) == t
  {
    match t
    case PBXGroup =>
    case PBXBuildStyle =>
    case PBXProject =>
    case PBXHeadersBuildPhase =>
    case PBXSourcesBuildPhase =>
    case PBXFrameworksBuildPhase =>
    case PBXNativeTarget =>
    case PBXFileReference =>
    case PBXBuildFile =>
    case PBXContainerItemProxy =>
    case PBXTargetDependency =>
    case PBXShellScriptBuildPhase =>
    case _ =>
  }

  /** The same for the remaining entries. */
  lemma TypeOfLastNames(t: PBXType)
    requires TypeIndex(t) >= 12
    ensures TypeOfKey(NameKey(TypeName(t))) == t
  {
    match t
    case PBXResourcesBuildPhase =>
    case PBXApplicationReference =>
    case PBXExecutableFileReference =>
    case PBXLibraryReference =>
    case PBXToolTarget =>
    case PBXLibraryTarget =>
    case PBXAggregateTarget =>
    case XCBuildConfiguration =>
    case XCConfigurationList =>
    case PBXCopyFilesBuildPhase =>
    case None =>
    case _ =>
  }

  /** The table lookup is faithful: distinct categories are printed under
      distinct names, so a printed isa line determines the category. */
  lemma TypeNameInjective(s: PBXType, t: PBXType)
    requires TypeName(s) == TypeName(t)
    ensures s == t
  {
    TypeOfTypeName(s);
    TypeOfTypeName(t);
  }

  /** The attribute name whose reference is printed without the target's comment. */
  const RemoteGlobalIdName := "remoteGlobalIDString"

  /** The reserved attribute every OBJECT carries, printed from IsA instead. */
  const IsaName := "isa"

  /** The format version the constructor sets; compact layout needs a larger one. */
  const DefaultVersion := 15

  class XcodeObject {
    var Version: int
    var IsA: PBXType
    var TypeValue: ObjectType
    var Id: string
    /** The annotation PrintComment writes after an identifier; "" when there is none. */
    var Comment: string
    var Str: string
    var List: seq<XcodeObject>
    var Attributes: seq<(string, XcodeObject?)>
    /** The referenced object of an OBJECT_REF (null when unset). */
    var Obj: XcodeObject?

    /** This node, the nodes nested in it through attribute values, and the
        list elements and referenced objects of all of them. */
    ghost var Repr: set<object>

    /** Attribute names are unique, and no attribute value contains its
        owner, so the recursive printer terminates. */
    ghost predicate Valid()
      reads this, Repr
      decreases Repr
    {
      this in Repr &&
      (forall i :: 0 <= i < |List| ==> List[i] in Repr) &&
      (Obj != null ==> Obj in Repr) &&
      (forall i, j :: 0 <= i < j < |Attributes| ==> Attributes[i].0 != Attributes[j].0) &&
      (forall i :: 0 <= i < |Attributes| && Attributes[i].1 != null ==>
        Attributes[i].1 in Repr && Attributes[i].1.Repr <= Repr &&
        this !in Attributes[i].1.Repr && Attributes[i].1.Valid())
    }

    /** The pointers PrintAttribute follows are not null: an OBJECT_REF has its
        target, and every value of a group is present and printable. */
    ghost predicate Printable()
      requires Valid()
      reads this, Repr
      decreases Repr
    {
      (TypeValue == ObjectRef ==> Obj != null) &&
      (TypeValue == AttributeGroup ==>
        forall i :: 0 <= i < |Attributes| ==>
          Attributes[i].1 != null && Attributes[i].1.Printable())
    }

    /** What Print dereferences: every attribute other than "isa" is present and printable. */
    ghost predicate PrintableAsObject()
      requires Valid()
      reads this, Repr
    {
      forall i :: 0 <= i < |Attributes| && Attributes[i].0 != IsaName ==>
        Attributes[i].1 != null && Attributes[i].1.Printable()
    }

    /** IsEmpty: the kind decides which field is consulted. */
    function IsEmpty(): bool
      reads this
    {
      match TypeValue
      case ObjectList => |List| == 0
      case String => |Str| == 0
      case AttributeGroup => |Attributes| == 0
      case ObjectRef => Obj == null
      case Object => Obj == null
    }

    /** The constructor: an OBJECT gets a sequence identifier when the hashing
        key is empty and a digest identifier otherwise, and the reserved "isa"
        attribute; any other kind gets the temporary text. Hyphens are then
        stripped and the Id cut to 24 characters. */
    constructor (registry: IdRegistry, ptype: PBXType, objectType: ObjectType, hashingKey: string)
      requires registry.Valid()
      modifies registry
      ensures Valid() && Repr == {this}
      ensures Version == DefaultVersion && IsA == ptype && TypeValue == objectType
      ensures Obj == null && Str == "" && List == [] && Comment == ""
      ensures Attributes == if objectType == Object then [(IsaName, null)] else []
      ensures IsEmpty()
      ensures '-' !in Id && |Id| == IdLength
      ensures registry.Valid()
      ensures objectType != Object ==>
        Id == TemporaryHead &&
        registry.SequenceIndex == old(registry.SequenceIndex) &&
        registry.ObjectIdCache == old(registry.ObjectIdCache)
      ensures objectType == Object && hashingKey == "" ==>
        registry.SequenceIndex == (old(registry.SequenceIndex) + 1) % SizeModulus &&
        Id == SequenceId(registry.SequenceIndex) &&
        registry.ObjectIdCache == old(registry.ObjectIdCache)
      ensures objectType == Object && hashingKey != "" ==>
        Id == HashPrefix + Hex(registry.Sha256(hashingKey)[..11]) &&
        registry.SequenceIndex == old(registry.SequenceIndex) &&
        registry.ObjectIdCache == old(registry.ObjectIdCache)[
          LookupKey(HashPrefix, hashingKey) := HashedId(HashPrefix, registry.Sha256(hashingKey))]
    {
      Version := DefaultVersion;
      Obj := null;
      IsA := ptype;
      var id := NewId(registry, objectType, hashingKey);
      Id := id;
      TypeValue := objectType;
      Str := "";
      List := [];
      Comment := "";
      Attributes := if objectType == Object then [(IsaName, null)] else [];
      Repr := {this};
    }

    /** The identifier the constructor assigns, with hyphens stripped and cut
        to 24 characters; it draws on the registry for an OBJECT. */
    static method NewId(registry: IdRegistry, objectType: ObjectType, hashingKey: string)
      returns (id: string)
      requires registry.Valid()
      modifies registry
      ensures registry.Valid()
      ensures '-' !in id && |id| == IdLength
      ensures objectType != Object ==>
        id == TemporaryHead &&
        registry.SequenceIndex == old(registry.SequenceIndex) &&
        registry.ObjectIdCache == old(registry.ObjectIdCache)
      ensures objectType == Object && hashingKey == "" ==>
        registry.SequenceIndex == (old(registry.SequenceIndex) + 1) % SizeModulus &&
        id == SequenceId(registry.SequenceIndex) &&
        registry.ObjectIdCache == old(registry.ObjectIdCache)
      ensures objectType == Object && hashingKey != "" ==>
        id == HashPrefix + Hex(registry.Sha256(hashingKey)[..11]) &&
        registry.SequenceIndex == old(registry.SequenceIndex) &&
        registry.ObjectIdCache == old(registry.ObjectIdCache)[
          LookupKey(HashPrefix, hashingKey) := HashedId(HashPrefix, registry.Sha256(hashingKey))]
    {
      var candidate: string;
      if objectType == Object {
        if |hashingKey| == 0 {
          var index := registry.NextSequenceIndex();
          var digits := ZeroPad(DecimalString(index));
          candidate := SequenceMarker + digits;
          SequenceFinalId(index);
        } else {
          candidate := registry.UniqueXcodeId(hashingKey, HashPrefix);
          HashedFinalId(registry.Sha256(hashingKey));
        }
      } else {
        candidate := TemporaryId;
        TemporaryFinalId();
      }
      id := TruncateId(StripHyphens(candidate));
    }

    /** SetString replaces the string value and nothing else. */
    method SetString(s: string)
      modifies this`Str
      ensures Str == s
      ensures old(Valid()) ==> Valid()
      ensures TypeValue == String ==> (IsEmpty() <==> s == "")
    {
      Str := s;
    }

    /** CopyAttributes takes over the attributes, list, string and referenced
        object of `copy`; kind, category, Id and comment stay. */
    method CopyAttributes(copy: XcodeObject)
      modifies this
      ensures Attributes == old(copy.Attributes) && List == old(copy.List)
      ensures Str == old(copy.Str) && Obj == old(copy.Obj)
      ensures Version == old(Version) && IsA == old(IsA) && TypeValue == old(TypeValue)
      ensures Id == old(Id) && Comment == old(Comment)
      ensures TypeValue == old(copy.TypeValue) ==> IsEmpty() == old(copy.IsEmpty())
      ensures old(copy.Valid()) && this !in old(copy.Repr) ==> Valid() && Repr == {this} + old(copy.Repr)
    {
      ghost var acyclic := copy.Valid() && this !in copy.Repr;
      Attributes := copy.Attributes;
      List := copy.List;
      Str := copy.Str;
      Obj := copy.Obj;
      if acyclic {
        Repr := {this} + copy.Repr;
      }
    }

    // -------------------------------------------------------------------
    // Printing
    // -------------------------------------------------------------------

    /** Indent: `level` tabs, counted down by a while loop. */
    static method Indent(level: int, out: string) returns (res: string)
      requires level >= 0
      ensures res == out + Tabs(level)
    {
      res := out;
      var n := level;
      while n != 0
        invariant 0 <= n <= level
        invariant res == out + Tabs(level - n)
        decreases n
      {
        res := res + "\t";
        n := n - 1;
        assert Tabs(level - n - 1) + "\t" == Tabs(level - n);
      }
    }

    /** The static PrintString: quote when needed, then the escaped text. */
    static method PrintString(out: string, s: string) returns (res: string)
      ensures res == out + Quoted(s)
    {
      var quote := if NeedsQuote(s) then "\"" else "";
      res := PrintEscaped(out + quote, s);
      res := res + quote;
    }

    /** The character loop of PrintString: a backslash before each double
        quote and backslash, every character copied. */
    static method PrintEscaped(out: string, s: string) returns (res: string)
      ensures res == out + Escape(s)
    {
      res := out;
      for i := 0 to |s|
        invariant res == out + Escape(s[..i])
      {
        assert out + Escape(s[..i + 1]) == res + EscapeChar(s[i]) by {
          EscapeSnoc(s[..i], s[i]);
          assert s[..i + 1] == s[..i] + [s[i]];
        }
        if s[i] == '"' || s[i] == '\\' {
          res := res + "\\";
        }
        res := res + [s[i]];
      }
      assert s[..|s|] == s;
    }

    /** The const PrintString overload: this node's own string value. */
    method PrintOwnString(out: string) returns (res: string)
      ensures res == out + Quoted(Str)
    {
      res := PrintString(out, Str);
    }

    /** Print: one object block, with the "isa" line first and every other
        attribute in container order. */
    method Print(out: string) returns (res: string)
      requires Valid() && PrintableAsObject()
      ensures res == WriteObject(out, this)
    {
      var separator := "\n";
      var indentFactor := 1;
      res := Indent(2 * indentFactor, out);
      if Version > DefaultVersion && (IsA == PBXFileReference || IsA == PBXBuildFile) {
        separator := " ";
        indentFactor := 0;
      }
      res := res + Id + Comment + " = {";
      if separator == "\n" {
        res := res + separator;
      }
      res := Indent(3 * indentFactor, res);
      res := res + "isa = " + PBXTypeNames[TypeIndex(IsA)] + ";" + separator;
      res := PrintMembers(res, this, separator, indentFactor);
      res := Indent(2 * indentFactor, res);
      res := res + "};\n";
    }

    /** The loop of Print: every attribute of o but "isa", in container order, at level 3. */
    static method PrintMembers(out: string, o: XcodeObject, separator: string, indentFactor: nat)
      returns (res: string)
      requires o.Valid() && o.PrintableAsObject()
      ensures res == WriteMembers(out, o, |o.Attributes|, separator, indentFactor)
    {
      res := out;
      for i := 0 to |o.Attributes|
        invariant res == WriteMembers(out, o, i, separator, indentFactor)
      {
        res := PrintMember(out, res, o, separator, indentFactor, i);
      }
    }

    /** Attribute i of o after the ones before it; the isa entry is skipped. */
    static method PrintMember(ghost start: string, out: string, o: XcodeObject, separator: string,
                              indentFactor: nat, i: nat) returns (res: string)
      requires o.Valid() && o.PrintableAsObject() && i < |o.Attributes|
      requires out == WriteMembers(start, o, i, separator, indentFactor)
      ensures res == WriteMembers(start, o, i + 1, separator, indentFactor)
    {
      res := out;
      if o.Attributes[i].0 != IsaName {
        res := PrintAttribute(res, 3, separator, indentFactor, o.Attributes[i].0, o.Attributes[i].1, o);
      }
    }

    /** PrintAttribute: the indent of the level, then the value by its kind;
        an OBJECT value gets the indent alone. */
    static method PrintAttribute(out: string, level: nat, separator: string, factor: nat,
                                 name: string, obj: XcodeObject, parent: XcodeObject)
      returns (res: string)
      requires obj.Valid() && obj.Printable()
      ensures res == WriteAttribute(out, level, separator, factor, name, obj,
                                    parent.TypeValue == AttributeGroup)
      decreases obj.Repr, 3
    {
      res := Indent(Scaled(level, factor), out);
      match obj.TypeValue {
        case ObjectList =>
          res := PrintListValue(res, level, separator, factor, name, obj,
                                parent.TypeValue == AttributeGroup);
        case AttributeGroup =>
          res := PrintGroupValue(res, level, separator, factor, name, obj);
        case ObjectRef =>
          res := PrintRefValue(res, separator, name, obj);
        case String =>
          res := PrintStringValue(res, separator, name, obj);
        case Object =>
      }
    }

    /** The OBJECT_LIST case of PrintAttribute. */
    static method PrintListValue(out: string, level: nat, separator: string, factor: nat,
                                 name: string, obj: XcodeObject, inGroup: bool)
      returns (res: string)
      ensures res == WriteListValue(out, level, separator, factor, name, obj, inGroup)
    {
      res := out + name + " = (";
      if !inGroup {
        res := res + separator;
      }
      res := PrintListItems(res, obj.List, level, separator, factor);
      if !inGroup {
        res := Indent(Scaled(level, factor), res);
      }
      res := res + ");" + separator;
    }

    /** The element loop of the OBJECT_LIST case. */
    static method PrintListItems(out: string, list: seq<XcodeObject>, level: nat, separator: string,
                                 factor: nat) returns (res: string)
      ensures res == WriteListItems(out, list, |list|, level, separator, factor)
    {
      res := out;
      for i := 0 to |list|
        invariant res == WriteListItems(out, list, i, level, separator, factor)
      {
        var element := list[i];
        if element.TypeValue == String {
          res := element.PrintOwnString(res);
          if i + 1 < |list| {
            res := res + ",";
          }
        } else {
          res := Indent(Scaled(level + 1, factor), res);
          res := res + element.Id + element.Comment + "," + separator;
        }
      }
    }

    /** The ATTRIBUTE_GROUP case of PrintAttribute. */
    static method PrintGroupValue(out: string, level: nat, separator: string, factor: nat,
                                  name: string, obj: XcodeObject)
      returns (res: string)
      requires obj.Valid() && obj.Printable() && obj.TypeValue == AttributeGroup
      ensures res == WriteGroupValue(out, level, separator, factor, name, obj)
      decreases obj.Repr, 2
    {
      res := out + name + " = {";
      if separator == "\n" {
        res := res + separator;
      }
      res := PrintGroupEntries(res, level, separator, factor, obj);
      res := Indent(Scaled(level, factor), res);
      res := res + "};" + separator;
    }

    /** The entry loop of the ATTRIBUTE_GROUP case: each entry one level deeper. */
    static method PrintGroupEntries(out: string, level: nat, separator: string, factor: nat,
                                    group: XcodeObject) returns (res: string)
      requires group.Valid() && group.Printable() && group.TypeValue == AttributeGroup
      ensures res == WriteGroupEntries(out, level, separator, factor, group, |group.Attributes|)
      decreases group.Repr, 1
    {
      res := out;
      for i := 0 to |group.Attributes|
        invariant res == WriteGroupEntries(out, level, separator, factor, group, i)
      {
        res := PrintGroupEntry(out, res, level, separator, factor, group, i);
      }
    }

    /** One entry of an ATTRIBUTE_GROUP, printed one level deeper after the
        entries before it. */
    static method PrintGroupEntry(ghost start: string, out: string, level: nat, separator: string,
                                  factor: nat, group: XcodeObject, i: nat) returns (res: string)
      requires group.Valid() && group.Printable() && group.TypeValue == AttributeGroup
      requires i < |group.Attributes|
      requires out == WriteGroupEntries(start, level, separator, factor, group, i)
      ensures res == WriteGroupEntries(start, level, separator, factor, group, i + 1)
      decreases group.Repr, 0
    {
      var entry := group.Attributes[i];
      assert entry.1.Valid() && entry.1.Printable() && group !in entry.1.Repr;
      res := PrintAttribute(out, Scaled(level + 1, factor), separator, factor, entry.0, entry.1, group);
    }

    /** The OBJECT_REF case of PrintAttribute. */
    static method PrintRefValue(out: string, separator: string, name: string, obj: XcodeObject)
      returns (res: string)
      requires obj.Obj != null
      ensures res == WriteRefValue(out, separator, name, obj)
    {
      res := PrintString(out, name);
      res := res + " = " + obj.Obj.Id;
      if obj.Obj.Comment != "" && name != RemoteGlobalIdName {
        res := res + obj.Obj.Comment;
      }
      res := res + ";" + separator;
    }

    /** The STRING case of PrintAttribute. */
    static method PrintStringValue(out: string, separator: string, name: string, obj: XcodeObject)
      returns (res: string)
      ensures res == WriteStringValue(out, separator, name, obj)
    {
      res := PrintString(out, name);
      res := res + " = ";
      res := obj.PrintOwnString(res);
      res := res + ";" + separator;
    }

    /** PrintList: the "objects" section, holding every OBJECT of `objs` in order. */
    static method PrintList(objs: seq<XcodeObject>, out: string) returns (res: string)
      requires AllPrintable(objs)
      ensures res == WriteObjectList(out, objs)
    {
      res := Indent(1, out);
      res := res + "objects = {\n";
      ghost var opening := res;
      for i := 0 to |objs|
        invariant res == WriteObjects(opening, objs, i)
      {
        res := PrintListEntry(opening, res, objs, i);
      }
      res := Indent(1, res);
      res := res + "};\n";
    }

    /** Entry i of the objects section after the ones before it: an OBJECT
        node is printed, any other node is skipped. */
    static method PrintListEntry(ghost start: string, out: string, objs: seq<XcodeObject>, i: nat)
      returns (res: string)
      requires AllPrintable(objs) && i < |objs|
      requires out == WriteObjects(start, objs, i)
      ensures res == WriteObjects(start, objs, i + 1)
    {
      res := out;
      if objs[i].TypeValue == Object {
        res := objs[i].Print(res);
      }
    }
  }

  // ---------------------------------------------------------------------
  // What the printer writes: each function maps the text already written
  // to the text after the operation, as the output stream sees it.
  // ---------------------------------------------------------------------

  /** An indent width: the level times the layout's factor (0 or 1 from Print). */
  function Scaled(level: nat, factor: nat): nat
  {
    level * factor
  }

  /** n tab characters. */
  function Tabs(n: nat): string
  {
    seq(n, _ => '\t')
  }

  /** Element i of an OBJECT_LIST: a string inline, followed by a comma unless
      it is the last element; any other node as its Id and comment on an
      indented line of its own, ending in a comma and the separator. */
  function WriteListItem(out: string, list: seq<XcodeObject>, i: nat, level: nat,
                         separator: string, factor: nat): string
    requires i < |list|
    reads list
  {
    var element := list[i];
    if element.TypeValue == String then
      if i + 1 < |list| then out + Quoted(element.Str) + "," else out + Quoted(element.Str)
    else
      out + Tabs(Scaled(level + 1, factor)) + element.Id + element.Comment + "," + separator
  }

  /** The first n elements of an OBJECT_LIST. */
  function WriteListItems(out: string, list: seq<XcodeObject>, n: nat, level: nat,
                          separator: string, factor: nat): string
    requires n <= |list|
    reads list
  {
    if n == 0 then out
    else WriteListItem(WriteListItems(out, list, n - 1, level, separator, factor),
                       list, n - 1, level, separator, factor)
  }

  /** An OBJECT_LIST value. Inside a group the list stays on one line: no
      separator after the parenthesis and no indent before it closes. */
  function WriteListValue(out: string, level: nat, separator: string, factor: nat,
                          name: string, obj: XcodeObject, parentIsGroup: bool): string
    reads obj, obj.List
  {
    var head := out + name + " = (";
    var started := if parentIsGroup then head else head + separator;
    var items := WriteListItems(started, obj.List, |obj.List|, level, separator, factor);
    var closing := if parentIsGroup then items else items + Tabs(Scaled(level, factor));
    closing + ");" + separator
  }

  /** What PrintAttribute writes for attribute `name` with value `obj`. */
  function WriteAttribute(out: string, level: nat, separator: string, factor: nat, name: string,
                          obj: XcodeObject, parentIsGroup: bool): string
    requires obj.Valid() && obj.Printable()
    reads obj, obj.Repr
    decreases obj.Repr, 3
  {
    var indented := out + Tabs(Scaled(level, factor));
    match obj.TypeValue
    case ObjectList => WriteListValue(indented, level, separator, factor, name, obj, parentIsGroup)
    case AttributeGroup => WriteGroupValue(indented, level, separator, factor, name, obj)
    case ObjectRef => WriteRefValue(indented, separator, name, obj)
    case String => WriteStringValue(indented, separator, name, obj)
    case Object => indented
  }

  /** An ATTRIBUTE_GROUP value, its entries one level deeper. */
  function WriteGroupValue(out: string, level: nat, separator: string, factor: nat,
                           name: string, obj: XcodeObject): string
    requires obj.Valid() && obj.Printable() && obj.TypeValue == AttributeGroup
    reads obj, obj.Repr
    decreases obj.Repr, 2
  {
    var head := out + name + " = {";
    var started := if separator == "\n" then head + separator else head;
    var entries := WriteGroupEntries(started, level, separator, factor, obj, |obj.Attributes|);
    entries + Tabs(Scaled(level, factor)) + "};" + separator
  }

  /** The first n entries of a group; a child list is written as inside a group. */
  function WriteGroupEntries(out: string, level: nat, separator: string, factor: nat,
                             group: XcodeObject, n: nat): string
    requires group.Valid() && group.Printable() && group.TypeValue == AttributeGroup
    requires n <= |group.Attributes|
    reads group, group.Repr
    decreases group.Repr, 1, n
  {
    if n == 0 then out
    else
      WriteAttribute(WriteGroupEntries(out, level, separator, factor, group, n - 1),
                     Scaled(level + 1, factor), separator, factor,
                     group.Attributes[n - 1].0, group.Attributes[n - 1].1, true)
  }

  /** An OBJECT_REF value: the target's Id, then its comment, which is left
      out when empty or when the attribute is remoteGlobalIDString. */
  function WriteRefValue(out: string, separator: string, name: string, obj: XcodeObject): string
    requires obj.Obj != null
    reads obj, obj.Obj
  {
    var target := out + Quoted(name) + " = " + obj.Obj.Id;
    var commented :=
      if obj.Obj.Comment != "" && name != RemoteGlobalIdName then target + obj.Obj.Comment else target;
    commented + ";" + separator
  }

  /** A STRING value: name and value, each quoted as PrintString decides. */
  function WriteStringValue(out: string, separator: string, name: string, obj: XcodeObject): string
    reads obj
  {
    out + Quoted(name) + " = " + Quoted(obj.Str) + ";" + separator
  }

  /** Compact layout: a format version above 15 and a file reference or build file. */
  predicate IsCompact(o: XcodeObject)
    reads o
  {
    o.Version > DefaultVersion && (o.IsA == PBXFileReference || o.IsA == PBXBuildFile)
  }

  /** The first n attributes of an object at level 3, the "isa" entry skipped. */
  function WriteMembers(out: string, o: XcodeObject, n: nat, separator: string, factor: nat): string
    requires o.Valid() && o.PrintableAsObject() && n <= |o.Attributes|
    reads o, o.Repr
  {
    if n == 0 then out
    else
      var written := WriteMembers(out, o, n - 1, separator, factor);
      if o.Attributes[n - 1].0 == IsaName then written
      else WriteAttribute(written, 3, separator, factor, o.Attributes[n - 1].0, o.Attributes[n - 1].1,
                          o.TypeValue == AttributeGroup)
  }

  /** What Print writes for o. The first indent is always two tabs: it is
      written before the layout is chosen. */
  function WriteObject(out: string, o: XcodeObject): string
    requires o.Valid() && o.PrintableAsObject()
    reads o, o.Repr
  {
    var separator := if IsCompact(o) then " " else "\n";
    var factor := if IsCompact(o) then 0 else 1;
    var head := out + Tabs(2) + o.Id + o.Comment + " = {";
    var started := if separator == "\n" then head + separator else head;
    var isa := started + Tabs(3 * factor) + "isa = " + TypeName(o.IsA) + ";" + separator;
    WriteMembers(isa, o, |o.Attributes|, separator, factor) + Tabs(2 * factor) + "};\n"
  }

  /** The nodes a sequence of root objects may read when printed. */
  ghost function ReprOf(objs: seq<XcodeObject>): set<object>
    reads objs
  {
    set i, x | 0 <= i < |objs| && x in objs[i].Repr :: x
  }

  /** Every OBJECT of the sequence can be printed. */
  ghost predicate AllPrintable(objs: seq<XcodeObject>)
    reads objs, ReprOf(objs)
  {
    forall i :: 0 <= i < |objs| && objs[i].TypeValue == Object ==>
      objs[i].Valid() && objs[i].PrintableAsObject()
  }

  /** The blocks of the OBJECT entries among the first n of objs, in order. */
  function WriteObjects(out: string, objs: seq<XcodeObject>, n: nat): string
    requires n <= |objs| && AllPrintable(objs)
    reads objs, set i, x | 0 <= i < |objs| && x in objs[i].Repr :: x
  {
    if n == 0 then out
    else
      var written := WriteObjects(out, objs, n - 1);
      if objs[n - 1].TypeValue == Object then WriteObject(written, objs[n - 1]) else written
  }

  /** What PrintList writes. */
  function WriteObjectList(out: string, objs: seq<XcodeObject>): string
    requires AllPrintable(objs)
    reads objs, set i, x | 0 <= i < |objs| && x in objs[i].Repr :: x
  {
    WriteObjects(out + Tabs(1) + "objects = {\n", objs, |objs|) + Tabs(1) + "};\n"
  }
}
