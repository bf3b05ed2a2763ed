/** The body and id primitives the rewriter is built from. They live in the engine crate
    `osproxy-rewrite`; here they are written out over `Json` to the behaviour the route
    crate's tests pin down. */
module Rewrite {
  import opened Common
  import opened Json

  datatype RewriteError =
    | InvalidJson
    | NotAnObject
    | Collision
    | BadTemplate
    | MissingIdField
    | IrreversibleTemplate
    | BadBulk
    | BadMget
    | BadMsearch

  // ----- id templates -----

  /** One piece of an id template such as `{partition}:{body.id}`. */
  datatype Piece = Lit(c: char) | Partition | Body(field: string)

  const BODY := "body."

  function Placeholder(name: string): Option<Piece> {
    if name == "partition" then Some(Partition)
    else if BODY <= name && |name| > |BODY| then Some(Body(name[|BODY|..]))
    else None
  }

  function ParseTemplate(t: string): Option<seq<Piece>>
    decreases |t|
  {
    if t == "" then Some([])
    else if t[0] != '{' then
      var r := ParseTemplate(t[1..]);
      if r.None? then None else Some([Lit(t[0])] + r.value)
    else
      var s := SplitOnce(t[1..], '}');
      if s.None? then None else
        var p := Placeholder(s.value.0);
        if p.None? then None else
          var r := ParseTemplate(s.value.1);
          if r.None? then None else Some([p.value] + r.value)
  }

  lemma ParsePlaceholder(name: string, rest: string)
    requires Free(name, '}') && Placeholder(name).Some? && ParseTemplate(rest).Some?
    ensures ParseTemplate("{" + (name + ['}'] + rest)) == Some([Placeholder(name).value] + ParseTemplate(rest).value)
  {
    SplitOnceAt(name, '}', rest);
    assert ("{" + (name + ['}'] + rest))[1..] == name + ['}'] + rest;
  }

  lemma ParseLiteral(c: char, rest: string)
    requires c != '{' && ParseTemplate(rest).Some?
    ensures ParseTemplate([c] + rest) == Some([Lit(c)] + ParseTemplate(rest).value)
  {
    assert ([c] + rest)[1..] == rest;
  }

  /** The id text of a scalar field. */
  function Scalar(v: Json): Option<string> {
    match v
    case Str(s) => Some(s)
    case Num(t) => Some(t)
    case Bool(b) => Some(if b then "true" else "false")
    case _ => None
  }

  function ScalarField(fs: Fields, name: string): Option<string> {
    var v := Get(fs, name);
    if v.None? then None else Scalar(v.value)
  }

  function Expand(pieces: seq<Piece>, partition: string, fs: Fields): Option<string> {
    if pieces == [] then Some("") else
      var rest := Expand(pieces[1..], partition, fs);
      var head := match pieces[0]
                  case Lit(c) => Some([c])
                  case Partition => Some(partition)
                  case Body(f) => ScalarField(fs, f);
      if head.None? || rest.None? then None else Some(head.value + rest.value)
  }

  /** A template with exactly one body field: the text before it, the field, the text after. */
  datatype IdShape = IdShape(pre: seq<Piece>, field: string, post: seq<Piece>) {
    function Prefix(partition: string): string { Fixed(pre, partition) }
    function Suffix(partition: string): string { Fixed(post, partition) }
    /** The physical id of a logical one. */
    function Physical(partition: string, logical: string): string {
      Prefix(partition) + logical + Suffix(partition)
    }
  }

  predicate BodyFree(pieces: seq<Piece>) {
    forall i :: 0 <= i < |pieces| ==> !pieces[i].Body?
  }

  /** The text of pieces without a body field. */
  function Fixed(pieces: seq<Piece>, partition: string): string {
    if pieces == [] then ""
    else PieceText(pieces[0], partition) + Fixed(pieces[1..], partition)
  }

  function PieceText(p: Piece, partition: string): string {
    match p
    case Lit(c) => [c]
    case Partition => partition
    case Body(_) => ""
  }

  function ShapeOf(pieces: seq<Piece>): (r: Option<IdShape>)
    ensures r.Some? ==> pieces == r.value.pre + [Body(r.value.field)] + r.value.post
                        && BodyFree(r.value.pre) && BodyFree(r.value.post)
  {
    if pieces == [] then None
    else if pieces[0].Body? then
      if BodyFree(pieces[1..]) then Some(IdShape([], pieces[0].field, pieces[1..])) else None
    else
      var r := ShapeOf(pieces[1..]);
      if r.None? then None else Some(r.value.(pre := [pieces[0]] + r.value.pre))
  }

  /** `construct_id_bytes`: the id a template builds from the body's own fields. */
  function ConstructId(template: string, partition: string, body: string): Result<string, RewriteError> {
    var fs :- ParseObject(body);
    var pieces := ParseTemplate(template);
    if pieces.None? then Err(BadTemplate) else
      var id := Expand(pieces.value, partition, fs);
      if id.None? then Err(MissingIdField) else Ok(id.value)
  }

  function TemplateShape(template: string): Result<IdShape, RewriteError> {
    var pieces := ParseTemplate(template);
    if pieces.None? then Err(BadTemplate) else
      var shape := ShapeOf(pieces.value);
      if shape.None? then Err(IrreversibleTemplate) else Ok(shape.value)
  }

  function MapLogicalToPhysical(template: string, partition: string, logical: string)
    : Result<string, RewriteError>
  {
    var shape :- TemplateShape(template);
    Ok(shape.Physical(partition, logical))
  }

  /** None for a template that cannot be reversed or an id that it did not build. */
  function MapPhysicalToLogical(template: string, partition: string, physical: string)
    : Result<Option<string>, RewriteError>
  {
    if ParseTemplate(template).None? then Err(BadTemplate) else
      var shape := TemplateShape(template);
      if shape.Err? then Ok(None) else
        Ok(Strip(physical, shape.value.Prefix(partition), shape.value.Suffix(partition)))
  }

  function Strip(s: string, prefix: string, suffix: string): Option<string> {
    if |prefix| + |suffix| <= |s| && prefix <= s && HasSuffix(s, suffix)
    then Some(s[|prefix|..|s| - |suffix|]) else None
  }

  lemma StripPhysical(shape: IdShape, partition: string, logical: string)
    ensures Strip(shape.Physical(partition, logical), shape.Prefix(partition), shape.Suffix(partition))
            == Some(logical)
  {
  }

  /** Unmapping inverts mapping, for every reversible template. */
  lemma UnmapMapped(template: string, partition: string, logical: string)
    requires MapLogicalToPhysical(template, partition, logical).Ok?
    ensures MapPhysicalToLogical(template, partition, MapLogicalToPhysical(template, partition, logical).value)
            == Ok(Some(logical))
  {
    StripPhysical(TemplateShape(template).value, partition, logical);
  }

  lemma {:induction false} ExpandConcat(a: seq<Piece>, b: seq<Piece>, partition: string, fs: Fields)
    requires BodyFree(a)
    ensures Expand(a + b, partition, fs) ==
            var rest := Expand(b, partition, fs);
            if rest.None? then None else Some(Fixed(a, partition) + rest.value)
  {
    var rest := Expand(b, partition, fs);
    if a == [] {
      assert a + b == b;
      if rest.Some? { assert "" + rest.value == rest.value; }
    } else {
      assert (a + b)[1..] == a[1..] + b;
      ExpandConcat(a[1..], b, partition, fs);
      if rest.Some? {
        assert PieceText(a[0], partition) + (Fixed(a[1..], partition) + rest.value)
            == Fixed(a, partition) + rest.value;
      }
    }
  }

  /** Building an id from a body is mapping the scalar that the template reads. */
  lemma ConstructIsMap(template: string, partition: string, body: string, shape: IdShape, fs: Fields)
    requires TemplateShape(template) == Ok(shape) && ParseObject(body) == Ok(fs)
    ensures ConstructId(template, partition, body) ==
            var logical := ScalarField(fs, shape.field);
            if logical.None? then Err(MissingIdField) else Ok(shape.Physical(partition, logical.value))
  {
    var pieces := ParseTemplate(template).value;
    var tail := [Body(shape.field)] + shape.post;
    assert pieces == shape.pre + tail;
    ExpandConcat(shape.pre, tail, partition, fs);
    assert tail[1..] == shape.post;
    ExpandConcat(shape.post, [], partition, fs);
    assert shape.post + [] == shape.post;
    assert shape.Suffix(partition) + "" == shape.Suffix(partition);
    var logical := ScalarField(fs, shape.field);
    if logical.Some? {
      assert shape.Prefix(partition) + (logical.value + shape.Suffix(partition))
          == shape.Physical(partition, logical.value);
    }
  }

  // ----- bodies -----

  function ParseObject(body: string): Result<Fields, RewriteError> {
    var j := Parse(body);
    if j.None? then Err(InvalidJson)
    else if j.value.Obj? then Ok(j.value.fields)
    else Err(NotAnObject)
  }

  /** `validate_json`. */
  function ValidateObject(body: string): Result<(), RewriteError> {
    var _ :- ParseObject(body);
    Ok(())
  }

  /** Adds the fields; a name the object already has is a collision. */
  function AddFields(fs: Fields, injected: Fields): Result<Fields, RewriteError>
    decreases injected
  {
    if injected == [] then Ok(fs)
    else if Has(fs, injected[0].0) then Err(Collision)
    else AddFields(Insert(fs, injected[0].0, injected[0].1), injected[1..])
  }

  /** `inject_fields_bytes`. */
  function InjectFields(body: string, injected: Fields): Result<string, RewriteError> {
    var fs :- ParseObject(body);
    var out :- AddFields(fs, injected);
    Ok(Print(Obj(out)))
  }

  /** `strip_fields`: only an object has fields to strip. */
  function StripFields(v: Json, names: seq<string>): Json {
    if v.Obj? then Obj(RemoveAll(v.fields, names)) else v
  }

  function RemoveAll(fs: Fields, names: seq<string>): Fields
    decreases names
  {
    if names == [] then fs else RemoveAll(Remove(fs, names[0]), names[1..])
  }

  function Names(fs: Fields): (r: seq<string>)
    ensures |r| == |fs| && forall i :: 0 <= i < |fs| ==> r[i] == fs[i].0
  {
    if fs == [] then [] else [fs[0].0] + Names(fs[1..])
  }

  lemma {:induction false} AddFieldsValid(fs: Fields, injected: Fields)
    requires ValidFields(fs) && AddFields(fs, injected).Ok?
    requires forall i :: 0 <= i < |injected| ==> ValidField(injected[i])
    ensures ValidFields(AddFields(fs, injected).value)
    decreases injected
  {
    if injected != [] {
      assert ValidField(injected[0]);
      InsertValid(fs, injected[0].0, injected[0].1);
      AddFieldsValid(Insert(fs, injected[0].0, injected[0].1), injected[1..]);
    }
  }

  lemma {:induction false} AddFieldsAppends(fs: Fields, injected: Fields)
    requires AddFields(fs, injected).Ok?
    ensures AddFields(fs, injected).value == fs + injected
    ensures forall i :: 0 <= i < |injected| ==> !Has(fs, injected[i].0)
    ensures Distinct(injected)
    decreases injected
  {
    if injected == [] {
      assert fs + injected == fs;
    } else {
      var f := injected[0];
      InsertNew(fs, f.0, f.1);
      var fs' := fs + [f];
      AddFieldsAppends(fs', injected[1..]);
      assert injected == [f] + injected[1..];
      assert fs' + injected[1..] == fs + injected;
      forall i | 0 <= i < |injected| ensures !Has(fs, injected[i].0) {
        if i > 0 {
          assert injected[i] == injected[1..][i - 1];
          GetConcat(fs, [f], injected[i].0);
        }
      }
      if Has(injected[1..], f.0) {
        var i := HasIndex(injected[1..], f.0);
        GetConcat(fs, [f], f.0);
      }
    }
  }

  lemma {:induction false} HasIndex(fs: Fields, key: string) returns (i: nat)
    requires Has(fs, key)
    ensures i < |fs| && fs[i].0 == key
  {
    if fs[0].0 == key {
      i := 0;
    } else {
      i := HasIndex(fs[1..], key);
      i := i + 1;
    }
  }

  lemma {:induction false} RemoveConcat(a: Fields, b: Fields, key: string)
    ensures Remove(a + b, key) == Remove(a, key) + Remove(b, key)
  {
    if a == [] {
      assert a + b == b;
    } else {
      assert (a + b)[1..] == a[1..] + b;
      RemoveConcat(a[1..], b, key);
    }
  }

  /** Stripping the injected names from an injected object restores it, order included. */
  lemma {:induction false} StripAdded(fs: Fields, injected: Fields)
    requires AddFields(fs, injected).Ok?
    ensures RemoveAll(AddFields(fs, injected).value, Names(injected)) == fs
  {
    AddFieldsAppends(fs, injected);
    RemoveAppended(fs, injected);
  }

  lemma {:induction false} RemoveAppended(fs: Fields, injected: Fields)
    requires Distinct(injected)
    requires forall i :: 0 <= i < |injected| ==> !Has(fs, injected[i].0)
    ensures RemoveAll(fs + injected, Names(injected)) == fs
    decreases injected
  {
    if injected == [] {
      assert fs + injected == fs;
    } else {
      var f := injected[0];
      var rest := injected[1..];
      RemoveConcat(fs, injected, f.0);
      RemoveAbsent(fs, f.0);
      RemoveAbsent(rest, f.0);
      assert Remove(injected, f.0) == rest;
      assert Names(injected)[1..] == Names(rest);
      forall i | 0 <= i < |rest| ensures !Has(fs, rest[i].0) {
        assert rest[i] == injected[i + 1];
      }
      RemoveAppended(fs, rest);
    }
  }
}
