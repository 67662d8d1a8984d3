/** The live feed's string members `"<id>|<component>"`, and the loops that read and prune them. */
module LiveFeed {
  import opened Types
  import opened Text

  function Prefix(item: nat): string {
    Decimal(item) + "|"
  }

  function Encode(e: FeedEntry): string {
    Prefix(e.item) + e.component
  }

  /** What `live_feed` makes of a member: skipped without a bar, otherwise id and component. */
  datatype Parsed = Skipped | ValueError | Entry(entry: FeedEntry)

  function Parse(m: string): Parsed {
    if FirstBar(m) == |m| then Skipped
    else
      var (wid, comp) := Partition(m);
      match ParseInt(wid)
      case None => ValueError
      case Some(n) => Entry(FeedEntry(n, comp))
  }

  lemma {:induction false} FirstBarAfterDigits(digits: string, rest: string)
    requires AllDigits(digits)
    ensures FirstBar(digits + "|" + rest) == |digits|
  {
    var m := digits + "|" + rest;
    assert m[|digits|] == '|';
    assert forall k :: 0 <= k < |digits| ==> m[k] == digits[k] && IsDigit(m[k]);
  }

  /** Partitioning at the first bar recovers both parts, even when the component has bars. */
  lemma ParseEncode(e: FeedEntry)
    ensures Parse(Encode(e)) == Entry(e)
  {
    var d := Decimal(e.item);
    FirstBarAfterDigits(d, e.component);
    assert Encode(e) == d + "|" + e.component;
    assert Encode(e)[..|d|] == d && Encode(e)[|d| + 1..] == e.component;
    ParseDecimal(e.item);
  }

  /** Digits before the first bar are read as the id, and all behind it as the component. */
  lemma EntryIsParsed(digits: string, component: string)
    requires digits != "" && AllDigits(digits)
    ensures Parse(digits + "|" + component) == Entry(FeedEntry(Value(digits), component))
  {
    var m := digits + "|" + component;
    FirstBarAfterDigits(digits, component);
    assert m[..|digits|] == digits && m[|digits| + 1..] == component;
  }

  /** Nothing else is read as an entry: a member without a bar is skipped, and anything but
      digits before the first bar raises. */
  lemma ParsedIsEntry(m: string) returns (digits: string)
    ensures Parse(m).Skipped? <==> '|' !in m
    ensures Parse(m).ValueError? <==> '|' in m && !(digits != "" && AllDigits(digits))
    ensures '|' in m ==> digits == m[..FirstBar(m)]
    ensures Parse(m).Entry? ==>
      m == digits + "|" + Parse(m).entry.component && Value(digits) == Parse(m).entry.item
  {
    var k := FirstBar(m);
    digits := m[..k];
    if k < |m| {
      assert m[k] == '|' && m == digits + "|" + m[k + 1..];
    }
  }

  /** A member as the backend writes it. */
  lemma EncodedForm()
    ensures Encode(FeedEntry(12, "db")) == "12|db"
  {
    DecimalIsCanonical(12);
    DecimalIsCanonical(1);
    DecimalIsCanonical(2);
  }

  lemma EncodeInjective(e: FeedEntry, f: FeedEntry)
    requires Encode(e) == Encode(f)
    ensures e == f
  {
    ParseEncode(e);
    ParseEncode(f);
  }

  /** `startswith("<id>|")` selects exactly the members of that id: 1 never matches 12. */
  lemma PrefixSelectsItem(item: nat, e: FeedEntry)
    ensures Prefix(item) <= Encode(e) <==> e.item == item
  {
    if Prefix(item) <= Encode(e) {
      var rest := Encode(e)[|Prefix(item)|..];
      var d := Decimal(item);
      assert Encode(e) == d + "|" + rest;
      assert Encode(FeedEntry(item, rest)) == Encode(e);
      EncodeInjective(e, FeedEntry(item, rest));
    }
  }

  /** The entry's printed member is there exactly if the entry is, with the same score. */
  ghost predicate EntryOk(feed: map<string, int>, entries: map<FeedEntry, int>, e: FeedEntry) {
    && (e in entries <==> Encode(e) in feed)
    && (e in entries ==> feed[Encode(e)] == entries[e])
  }

  /** The member was printed from an entry. */
  ghost predicate Written(m: string) {
    Parse(m).Entry? && Encode(Parse(m).entry) == m
  }

  /** The string set stands for the entries: same members, same scores, nothing else. */
  ghost predicate Represents(feed: map<string, int>, entries: map<FeedEntry, int>) {
    && (forall e :: EntryOk(feed, entries, e))
    && (forall m :: m in feed ==> Written(m))
  }

  function WithoutPrefix(feed: map<string, int>, prefix: string): map<string, int> {
    map m | m in feed && !(prefix <= m) :: feed[m]
  }

  function WithoutItem(entries: map<FeedEntry, int>, item: nat): map<FeedEntry, int> {
    map e | e in entries && e.item != item :: entries[e]
  }

  /** Adding a member and pruning a prefix mean adding an entry and dropping an item. */
  lemma PushRepresents(feed: map<string, int>, entries: map<FeedEntry, int>, e: FeedEntry, score: int)
    requires Represents(feed, entries)
    ensures Represents(feed[Encode(e) := score], entries[e := score])
  {
    var feed', entries' := feed[Encode(e) := score], entries[e := score];
    forall f ensures EntryOk(feed', entries', f) {
      assert EntryOk(feed, entries, f);
      if Encode(f) == Encode(e) {
        EncodeInjective(f, e);
      }
    }
    ParseEncode(e);
    assert Written(Encode(e));
  }

  lemma PruneRepresents(feed: map<string, int>, entries: map<FeedEntry, int>, item: nat)
    requires Represents(feed, entries)
    ensures Represents(WithoutPrefix(feed, Prefix(item)), WithoutItem(entries, item))
  {
    var feed', entries' := WithoutPrefix(feed, Prefix(item)), WithoutItem(entries, item);
    forall e ensures EntryOk(feed', entries', e) {
      assert EntryOk(feed, entries, e);
      PrefixSelectsItem(item, e);
    }
  }

  datatype LiveRow = LiveRow(item: nat, component: ComponentId, score: int)
  datatype LiveResult = Rows(rows: seq<LiveRow>) | Raised

  function RowsOf(members: seq<(string, int)>): seq<LiveRow> {
    if members == [] then []
    else
      var last := members[|members| - 1];
      RowsOf(members[..|members| - 1]) +
      (match Parse(last.0)
       case Entry(e) => [LiveRow(e.item, e.component, last.1)]
       case _ => [])
  }

  /** The loop behind GET /live: skips members without a bar, raises on an id that is no number. */
  method ReadLiveFeed(members: seq<(string, int)>) returns (r: LiveResult)
    ensures if exists k :: 0 <= k < |members| && Parse(members[k].0).ValueError? then r == Raised
            else r == Rows(RowsOf(members))
  {
    var out: seq<LiveRow> := [];
    var i := 0;
    while i < |members|
      invariant 0 <= i <= |members| && out == RowsOf(members[..i])
      invariant forall k :: 0 <= k < i ==> !Parse(members[k].0).ValueError?
    {
      assert members[..i + 1][..i] == members[..i];
      var (member, score) := members[i];
      if FirstBar(member) < |member| {
        var (wid, comp) := Partition(member);
        var id := ParseInt(wid);
        if id.None? {
          return Raised;
        }
        out := out + [LiveRow(id.value, comp, score)];
      }
      i := i + 1;
    }
    assert members[..i] == members;
    return Rows(out);
  }

  /** On members the backend wrote, the endpoint returns every entry, in order. */
  lemma {:induction false} RowsOfEncoded(entries: seq<(FeedEntry, int)>, members: seq<(string, int)>)
    requires |members| == |entries|
    requires forall k :: 0 <= k < |entries| ==> members[k] == (Encode(entries[k].0), entries[k].1)
    ensures |RowsOf(members)| == |entries|
    ensures forall k :: 0 <= k < |entries| ==>
      RowsOf(members)[k] == LiveRow(entries[k].0.item, entries[k].0.component, entries[k].1)
  {
    if entries != [] {
      var n := |entries| - 1;
      RowsOfEncoded(entries[..n], members[..n]);
      ParseEncode(entries[n].0);
    }
  }
}
