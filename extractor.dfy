/**
 * What `parseAndDisplay` (app.js:110-147) does to the result card, as a
 * function of the card before the call and the raw model text. The DOM
 * writes happen one after another, and a TypeError thrown part-way is
 * swallowed by the catch at app.js:144-146, so the card can be left with
 * only its first fields rewritten.
 */
module Extractor {
  import opened Wrappers
  import opened Js
  import opened Span

  /** One near-match chip: the name text and the confidence text. */
  datatype MatchChip = MatchChip(name: string, conf: string)

  /** The texts and visibility flags of the result card. */
  datatype Display = Display(
    category: string,      // #res-category
    name: string,          // #res-name
    countText: string,     // #res-count
    matches: seq<MatchChip>,  // #res-matches, in order
    damageVisible: bool,   // #res-damage is not hidden
    cardVisible: bool)     // #result-card slid in

  /** The chip app.js:127-130 renders for one entry `m`: None when reading
      `m.name` throws (m is null) or when converting name or conf throws. */
  function Chip(m: Json, nt: real -> string): Option<MatchChip>
  {
    if m.Null? then None
    else
      match (ValueText(Member(m, "name"), nt), OrText(Member(m, "conf"), "?", nt))
      case (Some(n), Some(c)) => Some(MatchChip(n, c))
      case _ => None
  }

  /** The `forEach` over the entries: the chips appended before the first
      entry that throws, and whether every entry was rendered. */
  function ChipRun(items: seq<Json>, nt: real -> string): (r: (seq<MatchChip>, bool))
    ensures |r.0| <= |items|
    ensures forall i :: 0 <= i < |r.0| ==> Chip(items[i], nt) == Some(r.0[i])
    ensures r.1 <==> |r.0| == |items|
    ensures !r.1 ==> Chip(items[|r.0|], nt).None?
    decreases |items|
  {
    if |items| == 0 then ([], true)
    else
      var prev := ChipRun(items[..|items| - 1], nt);
      if !prev.1 then prev
      else
        match Chip(items[|items| - 1], nt)
        case None => (prev.0, false)
        case Some(c) => (prev.0 + [c], true)
  }

  /** Damage badge and card after a mapping that ran to its end
      (app.js:134-142). */
  function Finish(d: Display, data: Json): Display
    requires !data.Null?
  {
    d.(damageVisible := Truthy(Member(data, "damaged")), cardVisible := true)
  }

  /** The writes of app.js:119-142 for a parsed value `data`, stopping at the
      first one that throws. */
  function Render(d: Display, data: Json, nt: real -> string): Display
  {
    if data.Null? then d  // reading data.category throws
    else
      match OrText(Member(data, "category"), "UNKNOWN", nt)
      case None => d
      case Some(cat) =>
        var d1 := d.(category := cat);
        match OrText(Member(data, "name"), "Object", nt)
        case None => d1
        case Some(nm) =>
          var d2 := d1.(name := nm);
          match OrText(Member(data, "count"), "--", nt)
          case None => d2
          case Some(ct) =>
            var d3 := d2.(countText := "Count: " + ct, matches := []);
            var list := Member(data, "near_matches");
            if !Truthy(list) then Finish(d3, data)       // `|| []`: nothing to append
            else if !(list.Of? && list.json.Arr?) then d3   // `forEach` is not a function
            else
              var run := ChipRun(list.json.items, nt);
              if run.1 then Finish(d3.(matches := run.0), data) else d3.(matches := run.0)
  }

  /** The card after `parseAndDisplay(raw)`. */
  function Apply(d: Display, raw: string, host: Host): Display
  {
    match FindSpan(raw)
    case None => d
    case Some(span) =>
      match host.parse(SpanText(raw, span))
      case None => d
      case Some(data) => Render(d, data, host.numberText)
  }

  // ---- Reference definitions ----

  /** The category, name and count writes all succeed. */
  ghost predicate HeaderOk(data: Json, nt: real -> string) {
    && !data.Null?
    && OrText(Member(data, "category"), "UNKNOWN", nt).Some?
    && OrText(Member(data, "name"), "Object", nt).Some?
    && OrText(Member(data, "count"), "--", nt).Some?
  }

  /** `near_matches` is absent or falsy, or an array every entry of which
      renders. */
  ghost predicate MatchesOk(list: Value, nt: real -> string) {
    !Truthy(list) ||
    (list.Of? && list.json.Arr? &&
     forall i :: 0 <= i < |list.json.items| ==> Chip(list.json.items[i], nt).Some?)
  }

  /** Every write of the mapping succeeds. */
  ghost predicate Maps(data: Json, nt: real -> string) {
    HeaderOk(data, nt) && MatchesOk(Member(data, "near_matches"), nt)
  }

  /** The chips of a value that satisfies MatchesOk, in the given order. */
  ghost function ChipsOf(list: Value, nt: real -> string): (r: seq<MatchChip>)
    requires MatchesOk(list, nt)
  {
    if !Truthy(list) then []
    else seq(|list.json.items|, i requires 0 <= i < |list.json.items| => Chip(list.json.items[i], nt).value)
  }

  /** The card a completed mapping shows. */
  ghost function Mapped(data: Json, nt: real -> string): Display
    requires Maps(data, nt)
  {
    Display(
      OrText(Member(data, "category"), "UNKNOWN", nt).value,
      OrText(Member(data, "name"), "Object", nt).value,
      "Count: " + OrText(Member(data, "count"), "--", nt).value,
      ChipsOf(Member(data, "near_matches"), nt),
      Truthy(Member(data, "damaged")),
      true)
  }

  // ---- Properties ----

  /** No span, or a span JSON.parse rejects: no field changes. */
  lemma NoChangeOnEarlyFailure(d: Display, raw: string, host: Host)
    requires FindSpan(raw).None? || host.parse(SpanText(raw, FindSpan(raw).value)).None?
    ensures Apply(d, raw, host) == d
  {
  }

  /** A text with no `}` after its first `{` leaves the card as it was. */
  lemma NoSpanNoChange(d: Display, raw: string, host: Host)
    requires !ClosesAfterFirstOpen(raw)
    ensures Apply(d, raw, host) == d
  {
    FindSpanSomeIff(raw);
  }

  /** The extracted object, after prose without braces on either side, is
      mapped exactly. */
  lemma PaddedObjectIsRendered(d: Display, pre: string, body: string, post: string, host: Host, data: Json)
    requires '{' !in pre && '}' !in post
    requires |body| >= 2 && body[0] == '{' && body[|body| - 1] == '}'
    requires host.parse(body) == Some(data)
    ensures Apply(d, pre + body + post, host) == Render(d, data, host.numberText)
  {
    SpanOfPadded(pre, body, post);
  }

  /** A run with no failing entry renders every entry, in order. */
  lemma ChipRunComplete(items: seq<Json>, nt: real -> string)
    requires forall i :: 0 <= i < |items| ==> Chip(items[i], nt).Some?
    ensures ChipRun(items, nt).1
    ensures ChipRun(items, nt).0 == seq(|items|, i requires 0 <= i < |items| => Chip(items[i], nt).value)
  {
  }

  /** A run stops right before its first failing entry, keeping the chips of
      the entries before it. */
  lemma ChipRunStopsAtFirstFailure(items: seq<Json>, k: nat, nt: real -> string)
    requires k < |items| && Chip(items[k], nt).None?
    requires forall i :: 0 <= i < k ==> Chip(items[i], nt).Some?
    ensures !ChipRun(items, nt).1
    ensures ChipRun(items, nt).0 == seq(k, i requires 0 <= i < k => Chip(items[i], nt).value)
  {
    var r := ChipRun(items, nt);
    assert |r.0| == k;
  }

  /** A run that is clean up to an entry that throws ends there: the whole
      run keeps exactly the prefix's chips. */
  lemma ChipRunPrefixFails(items: seq<Json>, i: nat, nt: real -> string)
    requires i < |items|
    requires ChipRun(items[..i], nt).1
    requires Chip(items[i], nt).None?
    ensures ChipRun(items, nt) == (ChipRun(items[..i], nt).0, false)
  {
    var cs := ChipRun(items[..i], nt).0;
    forall j | 0 <= j < i ensures Chip(items[j], nt).Some? {
      assert items[..i][j] == items[j];
    }
    ChipRunStopsAtFirstFailure(items, i, nt);
    assert ChipRun(items, nt).0 == cs;
  }

  /** The card is shown after, and only after, a mapping that runs to the
      end; the same mapping sets the damage badge from `damaged` and every
      other field as the defaults say. */
  lemma RenderCompleteIff(d: Display, data: Json, nt: real -> string)
    ensures Maps(data, nt) ==> Render(d, data, nt) == Mapped(data, nt)
    ensures !Maps(data, nt) ==>
              Render(d, data, nt).cardVisible == d.cardVisible &&
              Render(d, data, nt).damageVisible == d.damageVisible
  {
    if !data.Null? {
      var list := Member(data, "near_matches");
      if HeaderOk(data, nt) && Truthy(list) && list.Of? && list.json.Arr? {
        var items := list.json.items;
        if MatchesOk(list, nt) {
          ChipRunComplete(items, nt);
        } else {
          var k :| 0 <= k < |items| && Chip(items[k], nt).None?;
          assert !ChipRun(items, nt).1;
        }
      }
    }
  }

  /** Card visibility after a call: unchanged, or shown when the whole
      mapping succeeds. A card that was hidden is never shown by a failed
      or partial mapping. */
  lemma CardShownIffMapped(d: Display, raw: string, host: Host)
    ensures Apply(d, raw, host).cardVisible <==>
              d.cardVisible ||
              (FindSpan(raw).Some? &&
               host.parse(SpanText(raw, FindSpan(raw).value)).Some? &&
               Maps(host.parse(SpanText(raw, FindSpan(raw).value)).value, host.numberText))
  {
    if FindSpan(raw).Some? && host.parse(SpanText(raw, FindSpan(raw).value)).Some? {
      RenderCompleteIff(d, host.parse(SpanText(raw, FindSpan(raw).value)).value, host.numberText);
    }
  }

  /** A throw in one of the first three writes: the fields before it are
      written and nothing else, so a null value or a category that does not
      convert leaves the card unchanged. */
  lemma HeaderThrowPartial(d: Display, data: Json, nt: real -> string)
    ensures data.Null? ==> Render(d, data, nt) == d
    ensures !data.Null? && OrText(Member(data, "category"), "UNKNOWN", nt).None? ==>
              Render(d, data, nt) == d
    ensures !data.Null? && OrText(Member(data, "category"), "UNKNOWN", nt).Some? &&
            OrText(Member(data, "name"), "Object", nt).None? ==>
              Render(d, data, nt) == d.(category := OrText(Member(data, "category"), "UNKNOWN", nt).value)
    ensures !data.Null? && OrText(Member(data, "category"), "UNKNOWN", nt).Some? &&
            OrText(Member(data, "name"), "Object", nt).Some? &&
            OrText(Member(data, "count"), "--", nt).None? ==>
              Render(d, data, nt) == d.(category := OrText(Member(data, "category"), "UNKNOWN", nt).value,
                                        name := OrText(Member(data, "name"), "Object", nt).value)
  {
  }

  /** `near_matches` present but not an array: category, name and count are
      already written and the list cleared when `forEach` throws; badge and
      card keep their old state. */
  lemma NonArrayMatchesPartial(d: Display, data: Json, nt: real -> string)
    requires HeaderOk(data, nt)
    requires Truthy(Member(data, "near_matches")) && !Member(data, "near_matches").json.Arr?
    ensures Render(d, data, nt) == d.(
              category := OrText(Member(data, "category"), "UNKNOWN", nt).value,
              name := OrText(Member(data, "name"), "Object", nt).value,
              countText := "Count: " + OrText(Member(data, "count"), "--", nt).value,
              matches := [])
  {
  }

  /** An entry at position k that is null (or does not convert): the chips
      of the entries before it are shown, nothing after, and badge and card
      keep their old state. */
  lemma FailingEntryPartial(d: Display, data: Json, nt: real -> string, k: nat)
    requires HeaderOk(data, nt)
    requires Member(data, "near_matches").Of? && Member(data, "near_matches").json.Arr?
    requires k < |Member(data, "near_matches").json.items|
    requires Chip(Member(data, "near_matches").json.items[k], nt).None?
    requires forall i :: 0 <= i < k ==> Chip(Member(data, "near_matches").json.items[i], nt).Some?
    ensures Render(d, data, nt) == d.(
              category := OrText(Member(data, "category"), "UNKNOWN", nt).value,
              name := OrText(Member(data, "name"), "Object", nt).value,
              countText := "Count: " + OrText(Member(data, "count"), "--", nt).value,
              matches := seq(k, i requires 0 <= i < k =>
                           Chip(Member(data, "near_matches").json.items[i], nt).value))
  {
    ChipRunStopsAtFirstFailure(Member(data, "near_matches").json.items, k, nt);
  }

  /** A null entry always stops the loop. */
  lemma NullEntryFails(nt: real -> string)
    ensures Chip(Null, nt).None?
  {
  }

  /** Falsy fields show their sentinels: "UNKNOWN", "Object", "Count: --"
      (so a count of 0 shows "--"). A sentinel cannot throw, so it is written
      whatever happens later, as soon as the writes before it succeed. */
  lemma FalsyFieldsShowSentinels(d: Display, data: Json, nt: real -> string)
    requires !data.Null?
    ensures !Truthy(Member(data, "category")) ==> Render(d, data, nt).category == "UNKNOWN"
    ensures OrText(Member(data, "category"), "UNKNOWN", nt).Some? &&
            !Truthy(Member(data, "name")) ==>
              Render(d, data, nt).name == "Object"
    ensures OrText(Member(data, "category"), "UNKNOWN", nt).Some? &&
            OrText(Member(data, "name"), "Object", nt).Some? &&
            !Truthy(Member(data, "count")) ==>
              Render(d, data, nt).countText == "Count: --"
    ensures OrText(Member(data, "category"), "UNKNOWN", nt).Some? &&
            OrText(Member(data, "name"), "Object", nt).Some? &&
            Member(data, "count") == Of(Num(0.0)) ==>
              Render(d, data, nt).countText == "Count: --"
  {
  }

  lemma FalsyConfShowsQuestionMark(m: Json, nt: real -> string)
    requires !m.Null? && !Truthy(Member(m, "conf"))
    requires ValueText(Member(m, "name"), nt).Some?
    ensures Chip(m, nt) == Some(MatchChip(ValueText(Member(m, "name"), nt).value, "?"))
  {
  }

  /** The list is rebuilt in the given order, with no sorting and no
      deduplication: chip i comes from entry i, and a falsy `near_matches`
      gives the empty list. */
  lemma MatchListOrder(data: Json, nt: real -> string)
    requires Maps(data, nt)
    ensures !Truthy(Member(data, "near_matches")) ==> Mapped(data, nt).matches == []
    ensures Truthy(Member(data, "near_matches")) ==>
              var items := Member(data, "near_matches").json.items;
              |Mapped(data, nt).matches| == |items| &&
              forall i :: 0 <= i < |items| ==> Some(Mapped(data, nt).matches[i]) == Chip(items[i], nt)
  {
  }

  /** `{}` as the whole model output shows every sentinel. */
  lemma EmptyObjectDefaults(d: Display, host: Host)
    requires host.parse("{}") == Some(Obj(map[]))
    ensures Apply(d, "{}", host) == Display("UNKNOWN", "Object", "Count: --", [], false, true)
  {
    SpanOfPadded("", "{}", "");
    assert "" + "{}" + "" == "{}";
  }

  /** A typical well-formed reply maps to the card it describes. */
  lemma ExampleReply(d: Display, nt: real -> string)
    requires nt(12.0) == "12"
    ensures Render(d, Obj(map[
              "category" := Str("Grains"), "name" := Str("Rice"), "count" := Num(12.0),
              "damaged" := Bool(false),
              "near_matches" := Arr([Obj(map["name" := Str("Wheat"), "conf" := Str("40%")])])]), nt)
            == Display("Grains", "Rice", "Count: 12", [MatchChip("Wheat", "40%")], false, true)
  {
    var entry := Obj(map["name" := Str("Wheat"), "conf" := Str("40%")]);
    var data := Obj(map[
              "category" := Str("Grains"), "name" := Str("Rice"), "count" := Num(12.0),
              "damaged" := Bool(false), "near_matches" := Arr([entry])]);
    assert OrText(Member(data, "category"), "UNKNOWN", nt) == Some("Grains");
    assert OrText(Member(data, "name"), "Object", nt) == Some("Rice");
    assert OrText(Member(data, "count"), "--", nt) == Some("12");
    assert Member(data, "near_matches") == Of(Arr([entry]));
    assert !Truthy(Member(data, "damaged"));
    assert Chip(entry, nt) == Some(MatchChip("Wheat", "40%"));
    ChipRunComplete([entry], nt);
  }

  /** The template object the prompt itself shows (app.js:80), taken as a
      reply: its placeholders are shown as texts and its `count: 0` shows
      "Count: --". */
  lemma PromptTemplateReply(d: Display, nt: real -> string)
    ensures Render(d, Obj(map[
              "category" := Str("..."), "name" := Str("..."),
              "near_matches" := Arr([Obj(map["name" := Str("..."), "conf" := Str("XX%")])]),
              "count" := Num(0.0), "damaged" := Bool(false)]), nt)
            == Display("...", "...", "Count: --", [MatchChip("...", "XX%")], false, true)
  {
    var entry := Obj(map["name" := Str("..."), "conf" := Str("XX%")]);
    var data := Obj(map[
              "category" := Str("..."), "name" := Str("..."),
              "near_matches" := Arr([entry]), "count" := Num(0.0), "damaged" := Bool(false)]);
    assert OrText(Member(data, "category"), "UNKNOWN", nt) == Some("...");
    assert OrText(Member(data, "name"), "Object", nt) == Some("...");
    assert OrText(Member(data, "count"), "--", nt) == Some("--");
    assert Member(data, "near_matches") == Of(Arr([entry]));
    assert !Truthy(Member(data, "damaged"));
    assert Chip(entry, nt) == Some(MatchChip("...", "XX%"));
    ChipRunComplete([entry], nt);
  }

  /** A `}` in the prose after the object is pulled into the span, and the
      span then runs past the object: here `{"a":1} ok :}` as a whole. */
  lemma StrayCloseWidensSpan()
    ensures FindSpan("{\"a\":1} ok :}") == Some((0, 13))
  {
    var s := "{\"a\":1} ok :}";
    FindSpanIsRule(s, 0, 13);
    assert RuleSpan(s, 0, 13);
  }
}
