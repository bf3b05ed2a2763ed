/** The `_bulk` compiler (crates/evoxy-route/src/bulk.rs): every item is rewritten for one
    physical index, and the whole body is refused when one item fails. */
module Bulk {
  import opened Common
  import opened Json
  import opened Rewrite
  import opened Ndjson
  import opened Transform

  /** `map_id`. */
  function BulkId(p: Resolved, logical: string): Result<string, PrepareError> {
    match p.transform.Rule()
    case Some(rule) => Lift(MapLogicalToPhysical(rule.template, p.partition, logical))
    case None => Ok(logical)
  }

  function RoutingOf(p: Resolved): Option<string> {
    match p.transform.Rule()
    case Some(rule) => if rule.setRouting then Some(p.partition) else None
    case None => None
  }

  /** The physical id and the outgoing source of one item. */
  function RewriteItem(p: Resolved, item: BulkItem): Result<(Option<string>, Option<string>), PrepareError> {
    match item.source
    case Some(source) =>
      var done :- Apply(source, p.transform, p.partition);
      (match item.id
       case Some(explicit) =>
         var id :- BulkId(p, explicit);
         Ok((Some(id), Some(done.body)))
       case None => Ok((done.id, Some(done.body))))
    case None =>
      match item.id
      case Some(explicit) =>
        var id :- BulkId(p, explicit);
        Ok((Some(id), None))
      case None => Ok((None, None))
  }

  function ActionMeta(p: Resolved, id: Option<string>): Fields {
    [("_index", Str(p.target.index))] + (Optional("_id", id) + Optional("routing", RoutingOf(p)))
  }

  function ActionLine(p: Resolved, action: BulkAction, id: Option<string>): string {
    Print(Obj([(Verb(action), Obj(ActionMeta(p, id)))]))
  }

  function ItemLines(p: Resolved, item: BulkItem): Result<seq<string>, PrepareError> {
    var r :- RewriteItem(p, item);
    Ok(ItemText(ActionLine(p, item.action, r.0), r.1))
  }

  function ItemsLines(p: Resolved, items: seq<BulkItem>): Result<seq<string>, PrepareError> {
    if items == [] then Ok([]) else
      var head :- ItemLines(p, items[0]);
      var rest :- ItemsLines(p, items[1..]);
      Ok(head + rest)
  }

  /** The rewritten body. */
  function RewriteBulk(p: Resolved, body: string): Result<string, PrepareError> {
    var items :- Lift(ParseBulk(body));
    var lines :- ItemsLines(p, items);
    Ok(Unlines(lines))
  }

  // ----- the loop -----

  method WriteActionLine(out: string, p: Resolved, action: BulkAction, id: Option<string>) returns (grown: string)
    ensures grown == out + ActionLine(p, action, id) + "\n"
  {
    var meta: Fields := [("_index", Str(p.target.index))];
    if id.Some? {
      meta := meta + [("_id", Str(id.value))];
    }
    var routing := RoutingOf(p);
    if routing.Some? {
      meta := meta + [("routing", Str(routing.value))];
    }
    assert meta == ActionMeta(p, id);
    var line := Print(Obj([(Verb(action), Obj(meta))]));
    grown := out + line;
    grown := grown + "\n";
  }

  /** The rewriter's loop: the output grows item by item, an error ends it. */
  method RewriteBulkLoop(p: Resolved, body: string) returns (r: Result<string, PrepareError>)
    ensures r == RewriteBulk(p, body)
  {
    var parsed := ParseBulk(body);
    if parsed.Err? {
      return Err(RewriteFailed(parsed.error));
    }
    var items := parsed.value;
    var out := "";
    ghost var done: seq<string> := [];
    assert items[0..] == items;
    AfterCons(done, [], ItemsLines(p, items));
    for i := 0 to |items|
      invariant out == Unlines(done)
      invariant ItemsLines(p, items) == After(done, ItemsLines(p, items[i..]))
    {
      var item := items[i];
      assert items[i..][1..] == items[i + 1..];
      var rewritten := RewriteItem(p, item);
      if rewritten.Err? {
        return Err(rewritten.error);
      }
      out := WriteActionLine(out, p, item.action, rewritten.value.0);
      if rewritten.value.1.Some? {
        out := out + rewritten.value.1.value;
        out := out + "\n";
      }
      ghost var lines := ItemLines(p, item).value;
      UnlinesItem(done, ActionLine(p, item.action, rewritten.value.0), rewritten.value.1);
      AfterCons(done, lines, ItemsLines(p, items[i + 1..]));
      done := done + lines;
    }
    assert done + [] == done;
    r := Ok(out);
  }

  function ItemText(line: string, source: Option<string>): seq<string> {
    [line] + if source.Some? then [source.value] else []
  }

  lemma UnlinesItem(done: seq<string>, line: string, source: Option<string>)
    ensures Unlines(done + ItemText(line, source)) ==
            if source.Some? then Unlines(done) + line + "\n" + source.value + "\n"
            else Unlines(done) + line + "\n"
  {
    UnlinesOne(done, line);
    if source.Some? {
      UnlinesOne(done + [line], source.value);
      assert done + [line] + [source.value] == done + ItemText(line, source);
    } else {
      assert done + ItemText(line, source) == done + [line];
    }
  }

  // ----- what the upstream reads -----

  /** The entry that stands for one item in the rewritten body. */
  function EntryFor(p: Resolved, item: BulkItem): BulkEntry
    requires RewriteItem(p, item).Ok?
  {
    var r := RewriteItem(p, item).value;
    BulkEntry(item.action, ActionMeta(p, r.0), r.1)
  }

  predicate AllRewrite(p: Resolved, items: seq<BulkItem>) {
    forall i :: 0 <= i < |items| ==> RewriteItem(p, items[i]).Ok?
  }

  function EntriesFor(p: Resolved, items: seq<BulkItem>): (r: seq<BulkEntry>)
    requires AllRewrite(p, items)
    ensures |r| == |items|
    ensures forall i :: 0 <= i < |items| ==> r[i] == EntryFor(p, items[i])
  {
    if items == [] then [] else [EntryFor(p, items[0])] + EntriesFor(p, items[1..])
  }

  function LineCount(items: seq<BulkItem>): nat {
    if items == [] then 0 else (if items[0].action.Delete? then 1 else 2) + LineCount(items[1..])
  }

  lemma ActionMetaValid(p: Resolved, id: Option<string>)
    ensures ValidFields(ActionMeta(p, id))
    ensures Get(ActionMeta(p, id), "_index") == Some(Str(p.target.index))
    ensures Get(ActionMeta(p, id), "_id") == if id.Some? then Some(Str(id.value)) else None
    ensures Get(ActionMeta(p, id), "routing") ==
            if RoutingOf(p).Some? then Some(Str(RoutingOf(p).value)) else None
  {
    var b := Optional("_id", id);
    var c := Optional("routing", RoutingOf(p));
    OptionalValid("routing", RoutingOf(p));
    if id.Some? {
      ConsValid(("_id", Str(id.value)), c);
    } else {
      assert b + c == c;
    }
    ConsValid(("_index", Str(p.target.index)), b + c);
  }

  lemma ActionLineRead(p: Resolved, action: BulkAction, id: Option<string>)
    ensures OneLine(ActionLine(p, action, id))
    ensures ParseAction(ActionLine(p, action, id)) == Ok((action, ActionMeta(p, id)))
  {
    ActionMetaValid(p, id);
    var f := (Verb(action), Obj(ActionMeta(p, id)));
    OneField(f);
    ParsePrint(Obj([f]));
    PrintOneLine(Obj([f]));
  }

  /** One item in front of lines that parse. */
  lemma ItemLinesRead(p: Resolved, item: BulkItem, rest: seq<string>, entries: seq<BulkEntry>)
    requires ValidTransform(p.transform) && WellSourced([item]) && RewriteItem(p, item).Ok?
    requires ParseEntries(rest) == Ok(entries)
    ensures var lines := ItemLines(p, item).value;
            && ParseEntries(lines + rest) == Ok([EntryFor(p, item)] + entries)
            && |lines| == LineCount([item])
            && forall i :: 0 <= i < |lines| ==> OneLine(lines[i])
  {
    var r := RewriteItem(p, item).value;
    var lines := ItemLines(p, item).value + rest;
    assert [item][0] == item;
    ActionLineRead(p, item.action, r.0);
    if item.source.Some? {
      ApplyOneLine(item.source.value, p.transform, p.partition);
      assert lines[1] == r.1.value && lines[2..] == rest;
    } else {
      assert lines[1..] == rest;
    }
  }

  lemma ItemsLinesOk(p: Resolved, items: seq<BulkItem>)
    ensures ItemsLines(p, items).Ok? <==> AllRewrite(p, items)
  {
    if items != [] { ItemsLinesOk(p, items[1..]); }
  }

  /** The rewritten lines parse to the entry-by-entry rewrite, in order. */
  lemma {:induction false} ItemsLinesRead(p: Resolved, items: seq<BulkItem>)
    requires ValidTransform(p.transform) && WellSourced(items) && AllRewrite(p, items)
    ensures ItemsLines(p, items).Ok?
    ensures var lines := ItemsLines(p, items).value;
            && ParseEntries(lines) == Ok(EntriesFor(p, items))
            && |lines| == LineCount(items)
            && forall i :: 0 <= i < |lines| ==> OneLine(lines[i])
  {
    if items != [] {
      ItemsLinesRead(p, items[1..]);
      ItemLinesRead(p, items[0], ItemsLines(p, items[1..]).value, EntriesFor(p, items[1..]));
    }
  }

  /** Compiling NDJSON to NDJSON: the rewritten body parses to exactly one entry per parsed
      item, in order, with the item's verb, its physical id and index, and its transformed
      source; it has two lines per source-bearing item and one per delete. */
  lemma RewrittenBulkRead(p: Resolved, body: string)
    requires ValidTransform(p.transform) && RewriteBulk(p, body).Ok?
    ensures ParseBulk(body).Ok?
    ensures var items := ParseBulk(body).value;
            var out := RewriteBulk(p, body).value;
            && AllRewrite(p, items)
            && ParseEntries(Lines(out)) == Ok(EntriesFor(p, items))
            && |Lines(out)| == LineCount(items)
  {
    var items := ParseBulk(body).value;
    ParseBulkSourced(body);
    ItemsLinesOk(p, items);
    ItemsLinesRead(p, items);
    LinesUnlines(ItemsLines(p, items).value);
  }

  /** All or nothing: a body is forwarded exactly when it parses and every item rewrites. */
  lemma BulkIsAllOrNothing(p: Resolved, body: string)
    ensures RewriteBulk(p, body).Ok? <==>
            ParseBulk(body).Ok? && AllRewrite(p, ParseBulk(body).value)
  {
    if ParseBulk(body).Ok? { ItemsLinesOk(p, ParseBulk(body).value); }
  }

  /** A body without transform problems reads back through the same parser: rewriting keeps
      the number of items, their verbs, and which of them carry a source. */
  lemma RewrittenBulkItems(p: Resolved, body: string)
    requires ValidTransform(p.transform) && RewriteBulk(p, body).Ok?
    ensures var items := ParseBulk(body).value;
            && AllRewrite(p, items)
            && ParseBulk(RewriteBulk(p, body).value).Ok?
            && var again := ParseBulk(RewriteBulk(p, body).value).value;
               |again| == |items| &&
               forall i :: 0 <= i < |items| ==> again[i] == ItemFor(p, items[i])
  {
    RewrittenBulkRead(p, body);
    ItemsOfEntries(p, ParseBulk(body).value);
  }

  function ItemFor(p: Resolved, item: BulkItem): BulkItem
    requires RewriteItem(p, item).Ok?
  {
    var r := RewriteItem(p, item).value;
    BulkItem(item.action, r.0, r.1)
  }

  lemma EntryId(p: Resolved, item: BulkItem)
    requires RewriteItem(p, item).Ok?
    ensures IdOf(EntryFor(p, item).meta) == Ok(RewriteItem(p, item).value.0)
  {
    ActionMetaValid(p, RewriteItem(p, item).value.0);
  }

  lemma {:induction false} ItemsOfEntries(p: Resolved, items: seq<BulkItem>)
    requires AllRewrite(p, items)
    ensures Items(EntriesFor(p, items)).Ok?
    ensures var again := Items(EntriesFor(p, items)).value;
            |again| == |items| && forall i :: 0 <= i < |items| ==> again[i] == ItemFor(p, items[i])
  {
    if items != [] {
      ItemsOfEntries(p, items[1..]);
      EntryId(p, items[0]);
      assert EntriesFor(p, items)[1..] == EntriesFor(p, items[1..]);
    }
  }
}
