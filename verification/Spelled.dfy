/** The line-delimited bodies as a client spells them: every well-formed `_bulk` and `_msearch` body
    is read for what it says, line by line. */
module Spelled {
  import opened Common
  import opened Json
  import opened Rewrite
  import opened Ndjson

  /** One action as a client writes it: a verb over its metadata, and a source behind it unless it
      deletes. */
  datatype Action = Action(verb: string, meta: Fields, source: Option<string>)

  predicate WellSpelled(a: Action) {
    && a.verb in {"index", "create", "update", "delete"} && ValidFields(a.meta)
    && (a.source.None? <==> a.verb == "delete")
    && (a.source.Some? ==> OneLine(a.source.value))
  }

  function ActionText(a: Action): string {
    Print(Obj([(a.verb, Obj(a.meta))]))
  }

  function ActionLines(a: Action): seq<string> {
    if a.source.Some? then [ActionText(a), a.source.value] else [ActionText(a)]
  }

  function BulkLines(actions: seq<Action>): seq<string> {
    if actions == [] then [] else ActionLines(actions[0]) + BulkLines(actions[1..])
  }

  /** The entry says what the action says. */
  predicate Says(e: BulkEntry, a: Action) {
    && e.meta == a.meta && e.source == a.source
    && match e.action
       case Index => a.verb == "index"
       case Create => a.verb == "create"
       case Update => a.verb == "update"
       case Delete => a.verb == "delete"
  }

  predicate SaysAll(entries: seq<BulkEntry>, actions: seq<Action>) {
    |entries| == |actions| && forall i :: 0 <= i < |actions| ==> Says(entries[i], actions[i])
  }

  lemma ActionRead(a: Action)
    requires WellSpelled(a)
    ensures OneLine(ActionText(a)) && ParseAction(ActionText(a)).Ok?
    ensures var r := ParseAction(ActionText(a)).value; Says(BulkEntry(r.0, r.1, a.source), a)
  {
    var f := (a.verb, Obj(a.meta));
    OneField(f);
    ParsePrint(Obj([f]));
    PrintOneLine(Obj([f]));
    VerbsApart();
  }

  lemma VerbsApart()
    ensures "index"[0] == 'i' && "create"[0] == 'c' && "update"[0] == 'u' && "delete"[0] == 'd'
  {
  }

  lemma ActionInFront(a: Action, rest: seq<string>)
    requires WellSpelled(a) && ParseEntries(rest).Ok?
    ensures var entries := ParseEntries(ActionLines(a) + rest);
            && entries.Ok? && |entries.value| == |ParseEntries(rest).value| + 1
            && Says(entries.value[0], a) && entries.value[1..] == ParseEntries(rest).value
  {
    var lines := ActionLines(a) + rest;
    ActionRead(a);
    assert lines[0] == ActionText(a);
    if a.source.Some? {
      assert lines[2..] == rest && lines[1] == a.source.value;
    } else {
      assert lines[1..] == rest;
    }
  }

  lemma SaysCons(entries: seq<BulkEntry>, actions: seq<Action>)
    requires |entries| == |actions| && actions != []
    requires Says(entries[0], actions[0]) && SaysAll(entries[1..], actions[1..])
    ensures SaysAll(entries, actions)
  {
    forall i | 0 <= i < |actions| ensures Says(entries[i], actions[i]) {
      if i > 0 { assert Says(entries[1..][i - 1], actions[1..][i - 1]); }
    }
  }

  lemma {:induction false} LinesRead(actions: seq<Action>)
    requires forall i :: 0 <= i < |actions| ==> WellSpelled(actions[i])
    ensures ParseEntries(BulkLines(actions)).Ok? && SaysAll(ParseEntries(BulkLines(actions)).value, actions)
  {
    if actions != [] {
      LinesRead(actions[1..]);
      ActionInFront(actions[0], BulkLines(actions[1..]));
      SaysCons(ParseEntries(BulkLines(actions)).value, actions);
    }
  }

  lemma {:induction false} LinesOne(actions: seq<Action>)
    requires forall i :: 0 <= i < |actions| ==> WellSpelled(actions[i])
    ensures forall i :: 0 <= i < |BulkLines(actions)| ==> OneLine(BulkLines(actions)[i])
  {
    if actions != [] {
      LinesOne(actions[1..]);
      ActionRead(actions[0]);
    }
  }

  /** The item has the action's source, and its id if it names one. */
  predicate ItemSays(item: BulkItem, a: Action) {
    && item.source == a.source && ScalarField(a.meta, "_id") == item.id
    && match item.action
       case Index => a.verb == "index"
       case Create => a.verb == "create"
       case Update => a.verb == "update"
       case Delete => a.verb == "delete"
  }

  predicate IdsAreScalars(actions: seq<Action>) {
    forall i :: 0 <= i < |actions| ==> Has(actions[i].meta, "_id") ==> ScalarField(actions[i].meta, "_id").Some?
  }

  lemma {:induction false} ItemsSay(entries: seq<BulkEntry>, actions: seq<Action>)
    requires SaysAll(entries, actions)
    requires IdsAreScalars(actions)
    ensures Items(entries).Ok? && |Items(entries).value| == |actions|
    ensures forall i :: 0 <= i < |actions| ==> ItemSays(Items(entries).value[i], actions[i])
  {
    if entries != [] {
      ItemsSay(entries[1..], actions[1..]);
      var items := Items(entries).value;
      assert Says(entries[0], actions[0]);
      assert items[1..] == Items(entries[1..]).value;
      forall i | 0 <= i < |actions| ensures ItemSays(items[i], actions[i]) {
        if i > 0 { assert items[i] == items[1..][i - 1] && actions[i] == actions[1..][i - 1]; }
      }
    }
  }

  /** Every well-spelled bulk body is read as its actions, in order: verb, id where one is named, and
      source. */
  lemma BulkRead(actions: seq<Action>)
    requires forall i :: 0 <= i < |actions| ==> WellSpelled(actions[i])
    requires IdsAreScalars(actions)
    ensures var items := ParseBulk(Unlines(BulkLines(actions)));
            && items.Ok? && |items.value| == |actions|
            && forall i :: 0 <= i < |actions| ==> ItemSays(items.value[i], actions[i])
  {
    LinesRead(actions);
    LinesOne(actions);
    LinesUnlines(BulkLines(actions));
    ItemsSay(ParseEntries(BulkLines(actions)).value, actions);
  }

  // ----- multi-searches -----

  function SearchLines(searches: seq<(Fields, string)>): seq<string> {
    if searches == [] then [] else [Print(Obj(searches[0].0)), searches[0].1] + SearchLines(searches[1..])
  }

  lemma {:induction false} PairsRead(searches: seq<(Fields, string)>)
    requires forall i :: 0 <= i < |searches| ==> ValidFields(searches[i].0) && OneLine(searches[i].1)
    ensures forall i :: 0 <= i < |SearchLines(searches)| ==> OneLine(SearchLines(searches)[i])
    ensures Pairs(SearchLines(searches)).Ok? && |Pairs(SearchLines(searches)).value| == |searches|
    ensures forall i :: 0 <= i < |searches| ==>
              Pairs(SearchLines(searches)).value[i] == (Print(Obj(searches[i].0)), searches[i].1)
  {
    if searches != [] {
      var lines := SearchLines(searches);
      PairsRead(searches[1..]);
      ParsePrint(Obj(searches[0].0));
      PrintOneLine(Obj(searches[0].0));
      assert lines[2..] == SearchLines(searches[1..]);
      var pairs := Pairs(lines).value;
      assert pairs[1..] == Pairs(SearchLines(searches[1..])).value;
      forall i | 0 <= i < |searches| ensures pairs[i] == (Print(Obj(searches[i].0)), searches[i].1) {
        if i > 0 { assert pairs[i] == pairs[1..][i - 1] && searches[i] == searches[1..][i - 1]; }
      }
    }
  }

  /** Every multi-search body, a header object and a query line in turn, is read as those pairs. */
  lemma MsearchRead(searches: seq<(Fields, string)>)
    requires forall i :: 0 <= i < |searches| ==> ValidFields(searches[i].0) && OneLine(searches[i].1)
    ensures var pairs := ParseMsearch(Unlines(SearchLines(searches)));
            && pairs.Ok? && |pairs.value| == |searches|
            && forall i :: 0 <= i < |searches| ==> pairs.value[i] == (Print(Obj(searches[i].0)), searches[i].1)
  {
    PairsRead(searches);
    LinesUnlines(SearchLines(searches));
  }
}
