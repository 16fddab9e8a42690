/** Reading a key request from JSON, and the path that a structural error reports. */
module RequestJson {
  import opened Fields
  import opened Values

  /** A structural error; `sub` is the error of a field below. */
  datatype InvalidError = InvalidError(msg: string, field: string, sub: Option<InvalidError>)

  /** Either a structural error, or a JSON value of a type that Go cannot decode. */
  datatype ParseError = Invalid(e: InvalidError) | DecodeError

  datatype Parsed<+T> = Ok(value: T) | Err(error: ParseError)

  const FIELD_ERROR := "Error on field"

  function Fault(msg: string): Parsed<Desc> {
    Err(Invalid(InvalidError(msg, "", None)))
  }

  // ---- Members of an object, as Go decodes them into a struct ----

  /** A string member: absent and null leave the empty string. */
  function StringMember(members: map<string, Json>, name: string): Decoded<string> {
    if name in members then AsStr(members[name]) else Value("")
  }

  const RELATIONS := {"relation", "relation-list", "generic-relation", "generic-relation-list"}

  /** Relation types that name their collection. */
  predicate NeedsCollection(kind: string) {
    kind == "relation" || kind == "relation-list"
  }

  // ---- The meaning of a well-formed field ----

  ghost predicate WellFormed(j: Json) {
    j.Null? ||
    (&& j.Obj?
     && match StringMember(j.members, "type")
        case Value(kind) =>
          if kind in RELATIONS then
            && (NeedsCollection(kind) ==> NamesCollection(j.members))
            && "fields" in j.members && FieldsWellFormed(j.members["fields"])
          else kind == "template" && ("values" in j.members ==> WellFormed(j.members["values"]))
        case _ => false)
  }

  ghost predicate FieldsWellFormed(j: Json) {
    j.Null? || (j.Obj? && forall n :: n in j.members ==> WellFormed(j.members[n]))
  }

  predicate NamesCollection(members: map<string, Json>) {
    StringMember(members, "collection").Value? && StringMember(members, "collection").value != ""
  }

  function Describe(kind: string, collection: string, fields: map<string, Desc>): Desc
    requires kind in RELATIONS
  {
    match kind
    case "relation" => Relation(collection, fields)
    case "relation-list" => RelationList(collection, fields)
    case "generic-relation" => Generic(fields)
    case _ => GenericList(fields)
  }

  ghost function Meaning(j: Json): Desc
    requires WellFormed(j)
  {
    if j.Null? then Leaf
    else
      var kind := StringMember(j.members, "type").value;
      if kind in RELATIONS then
        Describe(kind, if NeedsCollection(kind) then StringMember(j.members, "collection").value else "",
                 FieldsMeaning(j.members["fields"]))
      else Template(if "values" in j.members then Meaning(j.members["values"]) else Leaf)
  }

  ghost function FieldsMeaning(j: Json): map<string, Desc>
    requires FieldsWellFormed(j)
  {
    if j.Null? then map[] else map n | n in j.members :: Meaning(j.members[n])
  }

  // ---- The same as a relation between the request and what it describes ----

  /** The object has this type; the names of its members are those of the documentation. */
  ghost predicate HasType(j: Json, kind: string) {
    j.Obj? && "type" in j.members && j.members["type"] == Str(kind)
  }

  ghost predicate HasCollection(j: Json, collection: string) {
    j.Obj? && "collection" in j.members && j.members["collection"] == Str(collection) && collection != ""
  }

  /** The member `fields` describes exactly these fields, each under its name. */
  ghost predicate HasFieldsOf(j: Json, fields: map<string, Desc>)
    decreases j, 0
  {
    && j.Obj? && "fields" in j.members
    && match j.members["fields"]
       case Null => fields == map[]
       case Obj(members) =>
         && fields.Keys == members.Keys
         && forall n :: n in members && n in fields ==> Describes(members[n], fields[n])
       case _ => false
  }

  /** The JSON value is the request for this description. */
  ghost predicate Describes(j: Json, d: Desc)
    decreases j, 1
  {
    match d
    case Leaf => j == Null
    case Relation(c, fields) => HasType(j, "relation") && HasCollection(j, c) && HasFieldsOf(j, fields)
    case RelationList(c, fields) => HasType(j, "relation-list") && HasCollection(j, c) && HasFieldsOf(j, fields)
    case Generic(fields) => HasType(j, "generic-relation") && HasFieldsOf(j, fields)
    case GenericList(fields) => HasType(j, "generic-relation-list") && HasFieldsOf(j, fields)
    case Template(values) =>
      && HasType(j, "template")
      && if "values" in j.members then Describes(j.members["values"], values) else values == Leaf
  }

  /** What Go decodes into a string of a struct: absent and null leave it empty. */
  ghost predicate MemberIs(members: map<string, Json>, name: string, s: string) {
    if name in members then StrOf(members[name], s) else s == ""
  }

  lemma {:induction false} StringMemberIff(members: map<string, Json>, name: string, s: string)
    ensures StringMember(members, name) == Value(s) <==> MemberIs(members, name, s)
    ensures StringMember(members, name).Value? <==> (name in members ==> IsStr(members[name]))
  {
    if name in members {
      AsStrIff(members[name], s);
    }
  }

  lemma {:induction false} StringMemberIs(members: map<string, Json>, name: string, s: string)
    requires s != ""
    ensures StringMember(members, name) == Value(s) <==> name in members && members[name] == Str(s)
  {
  }

  lemma {:induction false} MeaningOfFields(j: Json)
    requires j.Obj? && "fields" in j.members && FieldsWellFormed(j.members["fields"])
    ensures HasFieldsOf(j, FieldsMeaning(j.members["fields"]))
    decreases j, 0
  {
    var fields := j.members["fields"];
    if fields.Obj? {
      forall n | n in fields.members ensures Describes(fields.members[n], FieldsMeaning(fields)[n]) {
        MeaningIsDescribed(fields.members[n]);
      }
    }
  }

  /** What a well-formed field means is what it describes: the type, the collection and the fields. */
  lemma {:induction false} MeaningIsDescribed(j: Json)
    requires WellFormed(j)
    ensures Describes(j, Meaning(j))
    decreases j, 1
  {
    if !j.Null? {
      var kind := StringMember(j.members, "type").value;
      StringMemberIs(j.members, "type", kind);
      if kind in RELATIONS {
        MeaningOfFields(j);
        if NeedsCollection(kind) {
          StringMemberIs(j.members, "collection", StringMember(j.members, "collection").value);
        }
      } else if "values" in j.members {
        MeaningIsDescribed(j.members["values"]);
      }
    }
  }

  lemma {:induction false} FieldsDescribedOnce(j: Json, fields: map<string, Desc>)
    requires HasFieldsOf(j, fields)
    ensures FieldsWellFormed(j.members["fields"]) && FieldsMeaning(j.members["fields"]) == fields
    decreases j, 0
  {
    var node := j.members["fields"];
    if node.Obj? {
      forall n | n in node.members ensures WellFormed(node.members[n]) && Meaning(node.members[n]) == fields[n] {
        DescribedIsMeaning(node.members[n], fields[n]);
      }
    }
  }

  /** Conversely, a value that describes something is well-formed, and means just that. */
  lemma {:induction false} DescribedIsMeaning(j: Json, d: Desc)
    requires Describes(j, d)
    ensures WellFormed(j) && Meaning(j) == d
    decreases j, 1
  {
    if d.Template? {
      if "values" in j.members {
        DescribedIsMeaning(j.members["values"], d.values);
      }
    } else if !d.Leaf? {
      FieldsDescribedOnce(j, d.fields);
    }
  }

  /** The node says what it describes: reading succeeds exactly then, with exactly that. */
  lemma {:induction false} MeaningIff(j: Json, d: Desc)
    ensures WellFormed(j) && Meaning(j) == d <==> Describes(j, d)
  {
    if WellFormed(j) && Meaning(j) == d {
      MeaningIsDescribed(j);
    }
    if Describes(j, d) {
      DescribedIsMeaning(j, d);
    }
  }

  // ---- Nodes that Go cannot decode ----

  /** The field, or one below it, holds a value of the wrong JSON type where the parser looks. */
  ghost predicate Undecodable(j: Json) {
    && !j.Null?
    && (j.Obj? ==>
      match StringMember(j.members, "type")
      case Value(kind) =>
        if kind in RELATIONS then
          || ("fields" in j.members && FieldsUndecodable(j.members["fields"]))
          || (NeedsCollection(kind) && StringMember(j.members, "collection").WrongType?)
        else kind == "template" && "values" in j.members && Undecodable(j.members["values"])
      case _ => true)
  }

  ghost predicate FieldsUndecodable(j: Json) {
    !j.Null? && (j.Obj? ==> exists n :: n in j.members && Undecodable(j.members[n]))
  }

  // ---- Faulty nodes ----

  /** The fault of the node itself, not of a node below it. */
  ghost predicate IsFault(j: Json, msg: string) {
    && j.Obj?
    && match StringMember(j.members, "type")
       case Value(kind) =>
         if kind == "" then msg == "no type"
         else if kind in RELATIONS then
           if NeedsCollection(kind) && StringMember(j.members, "collection") == Value("") then msg == "no collection"
           else "fields" !in j.members && msg == "no fields"
         else kind != "template" && msg == "unknown type " + kind
       case _ => false
  }

  /** The node that a path of field names leads to; a template level is called `template`. */
  ghost function NodeAt(j: Json, path: seq<string>): Option<Json>
    decreases |path|
  {
    if path == [] then Some(j)
    else if !j.Obj? then None
    else if StringMember(j.members, "type") == Value("template") then
      if path[0] == "template" && "values" in j.members then NodeAt(j.members["values"], path[1..]) else None
    else FieldAt(j.members, path)
  }

  ghost function FieldAt(members: map<string, Json>, path: seq<string>): Option<Json>
    requires path != []
    decreases |path|, 0
  {
    if "fields" in members && members["fields"].Obj? && path[0] in members["fields"].members then
      NodeAt(members["fields"].members[path[0]], path[1..])
    else None
  }

  /** The field names down to the innermost error. */
  function Path(e: InvalidError): seq<string> {
    match e.sub
    case None => []
    case Some(sub) => [e.field] + Path(sub)
  }

  function Innermost(e: InvalidError): InvalidError {
    match e.sub
    case None => e
    case Some(sub) => Innermost(sub)
  }

  /** The error leads to a node below `j` that is itself faulty, and says what is wrong with it. */
  ghost predicate Blames(j: Json, e: InvalidError) {
    && NodeAt(j, Path(e)).Some?
    && IsFault(NodeAt(j, Path(e)).value, Innermost(e).msg)
  }

  ghost predicate FieldsBlame(j: Json, e: InvalidError) {
    && e.sub.Some? && e.msg == FIELD_ERROR
    && j.Obj? && e.field in j.members && Blames(j.members[e.field], e.sub.value)
  }

  lemma {:induction false} BlamesBelow(j: Json, e: InvalidError)
    requires j.Obj? && "fields" in j.members && StringMember(j.members, "type") != Value("template")
    requires FieldsBlame(j.members["fields"], e)
    ensures Blames(j, e)
  {
    assert Path(e) == [e.field] + Path(e.sub.value);
    assert Path(e)[1..] == Path(e.sub.value);
  }

  lemma {:induction false} BlamesTemplate(j: Json, e: InvalidError)
    requires j.Obj? && "values" in j.members && StringMember(j.members, "type") == Value("template")
    requires e.field == "template" && e.sub.Some? && Blames(j.members["values"], e.sub.value)
    ensures Blames(j, e)
  {
    assert Path(e) == ["template"] + Path(e.sub.value);
    assert Path(e)[1..] == Path(e.sub.value);
  }

  // ---- The parser ----

  /** `unmarshalField`. */
  method UnmarshalField(j: Json) returns (r: Parsed<Desc>)
    ensures r.Ok? <==> WellFormed(j)
    ensures r.Ok? ==> r.value == Meaning(j) && Describes(j, r.value)
    ensures r.Err? ==> if r.error.Invalid? then Blames(j, r.error.e) else Undecodable(j)
    decreases j, 1
  {
    if j.Null? {
      return Ok(Leaf);
    }
    if WellFormed(j) {
      MeaningIsDescribed(j);
    }
    if !j.Obj? || !StringMember(j.members, "type").Value? {
      return Err(DecodeError);
    }
    var kind := StringMember(j.members, "type").value;
    if kind in RELATIONS {
      r := UnmarshalRelation(j, kind);
    } else if kind == "template" {
      r := UnmarshalTemplate(j);
    } else if kind == "" {
      r := Fault("no type");
    } else {
      r := Fault("unknown type " + kind);
    }
  }

  /** The `UnmarshalJSON` of the four relation types. Errors in the fields come first. */
  method UnmarshalRelation(j: Json, kind: string) returns (r: Parsed<Desc>)
    requires j.Obj? && kind in RELATIONS && StringMember(j.members, "type") == Value(kind)
    ensures r.Ok? <==> WellFormed(j)
    ensures r.Ok? ==> r.value == Meaning(j)
    ensures r.Err? ==> if r.error.Invalid? then Blames(j, r.error.e) else Undecodable(j)
    ensures "fields" in j.members && !FieldsWellFormed(j.members["fields"]) ==>
      && r.Err?
      && if r.error.Invalid? then FieldsBlame(j.members["fields"], r.error.e)
         else FieldsUndecodable(j.members["fields"])
    decreases j, 0
  {
    var fields: map<string, Desc> := map[];
    if "fields" in j.members {
      var fs := UnmarshalFields(j.members["fields"]);
      if fs.Err? {
        if fs.error.Invalid? {
          BlamesBelow(j, fs.error.e);
        }
        return Err(fs.error);
      }
      fields := fs.value;
    }
    var collection := "";
    if NeedsCollection(kind) {
      var c := StringMember(j.members, "collection");
      if !c.Value? {
        return Err(DecodeError);
      }
      if c.value == "" {
        return Fault("no collection");
      }
      collection := c.value;
    }
    if "fields" !in j.members {
      return Fault("no fields");
    }
    return Ok(Describe(kind, collection, fields));
  }

  /** `templateField.UnmarshalJSON`. */
  method UnmarshalTemplate(j: Json) returns (r: Parsed<Desc>)
    requires j.Obj? && StringMember(j.members, "type") == Value("template")
    ensures r.Ok? <==> WellFormed(j)
    ensures r.Ok? ==> r.value == Meaning(j)
    ensures r.Err? ==> if r.error.Invalid? then Blames(j, r.error.e) else Undecodable(j)
    decreases j, 0
  {
    if "values" !in j.members {
      return Ok(Template(Leaf));
    }
    var sub := UnmarshalField(j.members["values"]);
    match sub
    case Ok(d) => return Ok(Template(d));
    case Err(DecodeError) => return Err(DecodeError);
    case Err(Invalid(e)) =>
      BlamesTemplate(j, InvalidError("Error in template sub", "template", Some(e)));
      return Err(Invalid(InvalidError("Error in template sub", "template", Some(e))));
  }

  /** `fieldsMap.UnmarshalJSON`: the fields are read in any order, the first error is returned. */
  method UnmarshalFields(j: Json) returns (r: Parsed<map<string, Desc>>)
    ensures r.Ok? <==> FieldsWellFormed(j)
    ensures r.Ok? ==> r.value == FieldsMeaning(j)
    ensures r.Err? ==> if r.error.Invalid? then FieldsBlame(j, r.error.e) else FieldsUndecodable(j)
    decreases j, 2
  {
    if j.Null? {
      return Ok(map[]);
    }
    if !j.Obj? {
      return Err(DecodeError);
    }
    var fields: map<string, Desc> := map[];
    var todo := j.members.Keys;
    while todo != {}
      invariant todo <= j.members.Keys && fields.Keys == j.members.Keys - todo
      invariant forall n :: n in fields ==> WellFormed(j.members[n]) && fields[n] == Meaning(j.members[n])
      decreases todo
    {
      var name :| name in todo;
      var fd := UnmarshalField(j.members[name]);
      match fd {
        case Ok(d) => fields := fields[name := d];
        case Err(DecodeError) => return Err(DecodeError);
        case Err(Invalid(e)) => return Err(Invalid(InvalidError(FIELD_ERROR, name, Some(e))));
      }
      todo := todo - {name};
    }
    return Ok(fields);
  }

  // ---- Bodies ----

  /** The ids of a body: absent and null leave the empty list. */
  function IdsMember(members: map<string, Json>): Decoded<seq<int>> {
    if "ids" !in members then Value([])
    else match members["ids"]
         case Null => Value([])
         case Arr(items) => ListInts(items)
         case _ => WrongType
  }

  ghost predicate BodyWellFormed(j: Json) {
    && j.Obj?
    && IdsMember(j.members).Value? && IdsMember(j.members).value != []
    && NamesCollection(j.members)
    && "fields" in j.members && FieldsWellFormed(j.members["fields"])
  }

  /** The JSON value is the request for this body. */
  ghost predicate DescribesBody(j: Json, b: Body) {
    && HasCollection(j, b.collection) && HasFieldsOf(j, b.fields)
    && b.ids != [] && "ids" in j.members && j.members["ids"].Arr? && |j.members["ids"].items| == |b.ids|
    && forall i :: 0 <= i < |b.ids| ==> IntOf(j.members["ids"].items[i], b.ids[i])
  }

  lemma {:induction false} ListIntsIff(items: seq<Json>, ids: seq<int>)
    ensures ListInts(items) == Value(ids)
        <==> |items| == |ids| && forall i :: 0 <= i < |ids| ==> IntOf(items[i], ids[i])
  {
    if items != [] && ids != [] {
      var n, m := |items| - 1, |ids| - 1;
      ListIntsIff(items[..n], ids[..m]);
      AsIntIff(items[n], ids[m]);
      assert ids == ids[..m] + [ids[m]];
      if ListInts(items) == Value(ids) {
        assert ListInts(items[..n]).value == ids[..m];
      }
    }
  }

  /** The ids of a body: a list of integers; absent and null leave it empty. */
  lemma {:induction false} IdsMemberIff(members: map<string, Json>, ids: seq<int>)
    ensures IdsMember(members) == Value(ids)
        <==> if "ids" !in members || members["ids"].Null? then ids == []
             else && members["ids"].Arr? && |members["ids"].items| == |ids|
                  && forall i :: 0 <= i < |ids| ==> IntOf(members["ids"].items[i], ids[i])
  {
    if "ids" in members && members["ids"].Arr? {
      ListIntsIff(members["ids"].items, ids);
    }
  }

  /** A body is well-formed exactly if it describes one, with these ids, this collection and these fields. */
  lemma {:induction false} BodyIff(j: Json, b: Body)
    ensures DescribesBody(j, b)
        <==> && BodyWellFormed(j)
             && b == Body(IdsMember(j.members).value, StringMember(j.members, "collection").value,
                          FieldsMeaning(j.members["fields"]))
  {
    if j.Obj? {
      if "ids" in j.members && j.members["ids"].Arr? {
        ListIntsIff(j.members["ids"].items, b.ids);
      }
      if DescribesBody(j, b) {
        FieldsDescribedOnce(j, b.fields);
      }
      if BodyWellFormed(j) {
        MeaningOfFields(j);
        StringMemberIs(j.members, "collection", StringMember(j.members, "collection").value);
      }
    }
  }

  ghost predicate BodyUndecodable(j: Json) {
    && !j.Null?
    && (j.Obj? ==>
      || ("fields" in j.members && FieldsUndecodable(j.members["fields"]))
      || IdsMember(j.members).WrongType? || StringMember(j.members, "collection").WrongType?)
  }

  /** What is wrong with the body itself; null is read like an empty object. */
  ghost predicate IsBodyFault(j: Json, msg: string) {
    (j.Null? && msg == "no ids") ||
    (&& j.Obj?
     && if IdsMember(j.members) == Value([]) then msg == "no ids"
        else if StringMember(j.members, "collection") == Value("") then msg == "no collection"
        else "fields" !in j.members && msg == "no fields")
  }

  /** The error is the body's own fault, or leads to a faulty node below it. */
  ghost predicate BodyBlames(j: Json, e: InvalidError) {
    if e.sub.None? then e.field == "" && IsBodyFault(j, e.msg)
    else
      && e.msg == FIELD_ERROR && j.Obj? && "fields" in j.members && FieldsBlame(j.members["fields"], e)
      && FieldAt(j.members, Path(e)).Some?
      && IsFault(FieldAt(j.members, Path(e)).value, Innermost(e).msg)
  }

  /** `body.UnmarshalJSON`. */
  method UnmarshalBody(j: Json) returns (r: Parsed<Body>)
    ensures r.Ok? <==> BodyWellFormed(j)
    ensures r.Ok? ==> DescribesBody(j, r.value)
    ensures r.Ok? ==> r.value == Body(IdsMember(j.members).value, StringMember(j.members, "collection").value,
                                      FieldsMeaning(j.members["fields"]))
    ensures r.Err? ==> if r.error.Invalid? then BodyBlames(j, r.error.e) else BodyUndecodable(j)
    ensures j.Obj? && "fields" in j.members && !FieldsWellFormed(j.members["fields"]) ==>
      && r.Err?
      && if r.error.Invalid? then FieldsBlame(j.members["fields"], r.error.e)
         else FieldsUndecodable(j.members["fields"])
  {
    if j.Null? {
      return Err(Invalid(InvalidError("no ids", "", None)));
    }
    if !j.Obj? {
      return Err(DecodeError);
    }
    var fields: map<string, Desc> := map[];
    if "fields" in j.members {
      var fs := UnmarshalFields(j.members["fields"]);
      if fs.Err? {
        if fs.error.Invalid? {
          assert Path(fs.error.e)[1..] == Path(fs.error.e.sub.value);
        }
        return Err(fs.error);
      }
      fields := fs.value;
    }
    var ids, collection := IdsMember(j.members), StringMember(j.members, "collection");
    if !ids.Value? || !collection.Value? {
      return Err(DecodeError);
    }
    if |ids.value| == 0 {
      return Err(Invalid(InvalidError("no ids", "", None)));
    }
    if collection.value == "" {
      return Err(Invalid(InvalidError("no collection", "", None)));
    }
    if "fields" !in j.members {
      return Err(Invalid(InvalidError("no fields", "", None)));
    }
    r := Ok(Body(ids.value, collection.value, fields));
    BodyIff(j, r.value);
  }

  // ---- The report ----

  /** `InvalidError.fields`: the names, and the error whose message is shown; none if there is no path. */
  method FieldsOf(e: InvalidError) returns (fields: Option<seq<string>>, last: InvalidError)
    ensures e.field == "" ==> fields == None
    ensures e.field != "" && e.sub.None? ==> fields == Some([e.field]) && last == e
    ensures e.field != "" && e.sub.Some? ==> fields == Some(Path(e)) && last == Innermost(e)
  {
    if e.field == "" {
      return None, e;
    }
    if e.sub.None? {
      return Some([e.field]), e;
    }
    var names: seq<string> := [];
    last := e;
    while last.sub.Some?
      invariant names + Path(last) == Path(e)
      invariant Innermost(last) == Innermost(e)
      decreases last
    {
      names := names + [last.field];
      last := last.sub.value;
    }
    assert names + Path(last) == names;
    return Some(names), last;
  }

  /** The path leads to a faulty node of the request, and the message is that node's fault. */
  ghost predicate Located(j: Json, path: seq<string>, msg: string) {
    if path == [] then IsBodyFault(j, msg)
    else j.Obj? && FieldAt(j.members, path).Some? && IsFault(FieldAt(j.members, path).value, msg)
  }

  lemma {:induction false} FaultsAreNotFieldErrors(j: Json, msg: string)
    requires IsFault(j, msg) || IsBodyFault(j, msg)
    ensures msg != FIELD_ERROR
  {
    assert msg[0] != FIELD_ERROR[0];
  }

  lemma {:induction false} FaultyIsNotWellFormed(j: Json, e: InvalidError)
    requires Blames(j, e)
    ensures !WellFormed(j)
    decreases e
  {
    if e.sub.Some? {
      var path := Path(e);
      assert path == [e.field] + Path(e.sub.value);
      assert path[0] == e.field && path[1..] == Path(e.sub.value);
      assert NodeAt(j, path).Some? && j.Obj?;
      if StringMember(j.members, "type") == Value("template") {
        FaultyIsNotWellFormed(j.members["values"], e.sub.value);
      } else {
        assert NodeAt(j, path) == FieldAt(j.members, path);
        FaultyIsNotWellFormed(j.members["fields"].members[e.field], e.sub.value);
      }
    }
  }

  /** A top-level field with the empty name is ill-formed: its error has no path to report. */
  ghost predicate UnnamedIllFormed(j: Json) {
    && j.Obj? && "fields" in j.members && j.members["fields"].Obj?
    && "" in j.members["fields"].members && !WellFormed(j.members["fields"].members[""])
  }

  /** All other fields of the body are well-formed, and the parser can decode what it looks at. */
  ghost predicate OnlyUnnamedIllFormed(j: Json) {
    && UnnamedIllFormed(j) && !FieldsUndecodable(j.members["fields"])
    && forall n :: n in j.members["fields"].members && n != "" ==> WellFormed(j.members["fields"].members[n])
  }

  /**
   * Reading a body and explaining what is wrong with it. If no top-level field with the empty
   * name is ill-formed, the path leads to the faulty node. If such a field is the only ill-formed
   * one, the path is lost and the message names no fault. With several ill-formed fields it depends
   * on the order in which Go visits them which of the two happens.
   */
  method Explain(j: Json) returns (r: Option<(seq<string>, string)>)
    ensures BodyWellFormed(j) ==> r.None?
    ensures r.None? ==> BodyWellFormed(j) || BodyUndecodable(j)
    ensures r.Some? && !UnnamedIllFormed(j) ==> Located(j, r.value.0, r.value.1)
    ensures OnlyUnnamedIllFormed(j) ==> r == Some(([], FIELD_ERROR)) && !Located(j, [], FIELD_ERROR)
    ensures r.Some? && !Located(j, r.value.0, r.value.1) ==> r.value == ([], FIELD_ERROR)
  {
    var b := UnmarshalBody(j);
    if b.Ok? || b.error.DecodeError? {
      return None;
    }
    var e := b.error.e;
    var fields, last := FieldsOf(e);
    if e.sub.Some? {
      FaultsAreNotFieldErrors(FieldAt(j.members, Path(e)).value, Innermost(e).msg);
      FaultyIsNotWellFormed(j.members["fields"].members[e.field], e.sub.value);
    } else {
      FaultsAreNotFieldErrors(j, e.msg);
    }
    return if fields.None? then Some(([], e.msg)) else Some((fields.value, last.msg));
  }

  // ---- A request that loses its path ----

  /** The field has no type, and no name. */
  const UNNAMED: Json := Obj(map[
    "ids" := Arr([Int(1)]),
    "collection" := Str("a"),
    "fields" := Obj(map["" := Obj(map["type" := Str("")])])])

  lemma {:induction false} UnnamedLosesPath()
    ensures OnlyUnnamedIllFormed(UNNAMED)
  {
    var field := UNNAMED.members["fields"].members[""];
    assert StringMember(field.members, "type") == Value("");
    assert [Int(1)][..0] == [];
    assert ListInts([Int(1)]) == Value([] + [1]);
  }

  /** For this request the report is neither a path nor a fault. */
  method ExplainUnnamed() returns (r: Option<(seq<string>, string)>)
    ensures r == Some(([], FIELD_ERROR)) && !Located(UNNAMED, [], FIELD_ERROR)
    ensures FieldAt(UNNAMED.members, [""]).Some? && IsFault(FieldAt(UNNAMED.members, [""]).value, "no type")
  {
    UnnamedLosesPath();
    r := Explain(UNNAMED);
    assert [""][1..] == [];
  }
}
