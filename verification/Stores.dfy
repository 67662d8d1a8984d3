/** Redis and Postgres as objects the backend updates in place. Every call here
    succeeds; what retries and failures do is in Retry and Debouncer. */
module Stores {
  import opened Types
  import opened Text
  import opened LiveFeed
  import opened Site
  import opened DedupKeys
  import States

  /** Dedup keys with expiry, and the live feed: both stored as strings, understood as
      keys and entries. */
  class Redis {
    var cells: map<string, Cell>
    var feed: map<string, int>
    ghost var keys: map<ComponentId, Key>
    ghost var entries: map<FeedEntry, int>

    ghost predicate KeysStand()
      reads this`cells, this`keys
    {
      Stands(cells, keys)
    }

    ghost predicate FeedStands()
      reads this`feed, this`entries
    {
      Represents(feed, entries)
    }

    ghost predicate Valid()
      reads this
    {
      KeysStand() && FeedStands()
    }

    constructor ()
      ensures Valid() && keys == map[] && entries == map[]
    {
      cells, keys, feed, entries := map[], map[], map[], map[];
    }

    /** SET name text NX EX ttl, with the placeholder of a document */
    method SetNx(c: ComponentId, doc: nat, ttl: int, now: int) returns (won: bool)
      requires KeysStand()
      modifies this`cells, this`keys
      ensures KeysStand() && (won <==> Live(old(keys), c, now).None?)
      ensures keys == if won then old(keys)[c := Key(Pending(doc), now + ttl)] else old(keys)
    {
      LiveCell(cells, keys, c, now);
      won := !(KeyName(c) in cells && now < cells[KeyName(c)].expires);
      if won {
        SetStands(cells, keys, c, Key(Pending(doc), now + ttl));
        cells := cells[KeyName(c) := Cell(PENDING + Decimal(doc), now + ttl)];
        keys := keys[c := Key(Pending(doc), now + ttl)];
      }
    }

    /** SET name text EX ttl, with or without XX, with a work item's id */
    method Set(c: ComponentId, item: nat, xx: bool, ttl: int, now: int)
      requires KeysStand()
      modifies this`cells, this`keys
      ensures KeysStand()
      ensures keys == if !xx || Live(old(keys), c, now).Some?
                      then old(keys)[c := Key(Claimed(item), now + ttl)] else old(keys)
    {
      LiveCell(cells, keys, c, now);
      if !xx || (KeyName(c) in cells && now < cells[KeyName(c)].expires) {
        SetStands(cells, keys, c, Key(Claimed(item), now + ttl));
        cells := cells[KeyName(c) := Cell(Decimal(item), now + ttl)];
        keys := keys[c := Key(Claimed(item), now + ttl)];
      }
    }

    /** GET name, and `int` of it: the string alone decides whether that raises. */
    method GetOpenWorkItem(c: ComponentId, now: int) returns (r: Lookup)
      requires KeysStand()
      ensures r == LookupOf(Live(keys, c, now))
    {
      LiveCell(cells, keys, c, now);
      if KeyName(c) !in cells || cells[KeyName(c)].expires <= now {
        return NoItem;
      }
      var text := cells[KeyName(c)].text;
      ReadPrinted(keys[c].value);
      if text == "" {
        return NoItem;
      }
      var number := ParseInt(text);
      return if number.Some? then Found(number.value) else BadNumber;
    }

    method ClearDedup(c: ComponentId)
      requires KeysStand()
      modifies this`cells, this`keys
      ensures KeysStand() && keys == old(keys) - {c}
    {
      DeleteStands(cells, keys, c);
      cells := cells - {KeyName(c)};
      keys := keys - {c};
    }

    method PushLiveFeed(item: nat, severity: Severity, c: ComponentId)
      requires FeedStands()
      modifies this`feed, this`entries
      ensures FeedStands() && entries == old(entries)[FeedEntry(item, c) := Score(severity)]
    {
      PushRepresents(feed, entries, FeedEntry(item, c), Score(severity));
      feed := feed[Encode(FeedEntry(item, c)) := Score(severity)];
      entries := entries[FeedEntry(item, c) := Score(severity)];
    }

    /** ZRANGE over the whole set; the order of members with equal score is immaterial here. */
    method ZRange() returns (members: seq<string>)
      ensures forall m :: m in members <==> m in feed
    {
      members := [];
      var left := feed.Keys;
      while left != {}
        invariant left <= feed.Keys
        invariant forall m :: m in members <==> m in feed && m !in left
        decreases |left|
      {
        var m :| m in left;
        members := members + [m];
        left := left - {m};
      }
    }

    /** The loop over a snapshot of the members, one ZREM at a time. */
    method RemovePrefix(prefix: string)
      modifies this`feed
      ensures feed == WithoutPrefix(old(feed), prefix)
    {
      var members := ZRange();
      var i := 0;
      while i < |members|
        invariant 0 <= i <= |members|
        invariant forall m :: m in feed <==> m in old(feed) && !(prefix <= m && m in members[..i])
        invariant forall m :: m in feed ==> feed[m] == old(feed)[m]
      {
        if prefix <= members[i] {
          feed := feed - {members[i]};
        }
        i := i + 1;
      }
      assert members[..i] == members;
    }

    /** Deletes every member that starts with the item's id and a bar: exactly its entries. */
    method RemoveFromLiveFeed(item: nat)
      requires FeedStands()
      modifies this`feed, this`entries
      ensures FeedStands() && entries == WithoutItem(old(entries), item)
    {
      PruneRepresents(feed, entries, item);
      RemovePrefix(Prefix(item));
      entries := WithoutItem(entries, item);
    }
  }

  /** The tables of Postgres; each method is one committed transaction. */
  class Postgres {
    var items: seq<WorkItem>
    var links: seq<Link>
    var metrics: map<MetricKey, nat>
    var rcas: map<nat, Rca>

    constructor ()
      ensures items == [] && links == [] && metrics == map[] && rcas == map[]
    {
      items, links, metrics, rcas := [], [], map[], map[];
    }

    method CreateWorkItem(sig: Signal) returns (id: nat)
      modifies this`items
      ensures id == |old(items)| && items == old(items) + [NewItem(sig)]
    {
      id := |items|;
      items := items + [WorkItem(sig.component, sig.kind, sig.severity, Open, sig.timestamp, None, None, 1)];
    }

    method IncrementSignalCount(id: nat)
      modifies this`items
      ensures items == Incremented(old(items), id)
    {
      if id < |items| {
        items := items[id := items[id].(signalCount := items[id].signalCount + 1)];
      }
    }

    method AddSignalLink(id: nat, doc: nat, sig: Signal)
      modifies this`links
      ensures links == old(links) + [Link(id, doc, sig.component, sig.severity, sig.timestamp)]
    {
      links := links + [Link(id, doc, sig.component, sig.severity, sig.timestamp)];
    }

    /** INSERT .. ON CONFLICT DO UPDATE SET count = count + 1 */
    method UpsertMetricBucket(bucket: int, c: ComponentId, severity: Severity)
      modifies this`metrics
      ensures metrics == Bump(old(metrics), MetricKey(bucket, c, severity))
    {
      var key := MetricKey(bucket, c, severity);
      if key in metrics {
        metrics := metrics[key := metrics[key] + 1];
      } else {
        metrics := metrics[key := 1];
      }
    }

    method GetWorkItem(id: nat) returns (row: Option<WorkItem>)
      ensures row == if id < |items| then Some(items[id]) else None
    {
      row := if id < |items| then Some(items[id]) else None;
    }

    method GetRca(id: nat) returns (rca: Option<Rca>)
      ensures rca == RcaOf(rcas, id)
    {
      rca := if id in rcas then Some(rcas[id]) else None;
    }

    method UpdateState(id: nat, r: States.TransitionResult)
      modifies this`items
      ensures items == if id < |old(items)| then old(items)[id := States.Updated(old(items)[id], r)] else old(items)
    {
      if id < |items| {
        var row := items[id].(state := r.newState);
        if r.endTime.Some? {
          row := row.(endTime := r.endTime);
        }
        if r.mttr.Some? {
          row := row.(mttr := r.mttr);
        }
        items := items[id := row];
      }
    }

    method UpsertRca(id: nat, rca: Rca)
      modifies this`rcas
      ensures rcas == old(rcas)[id := rca]
    {
      rcas := rcas[id := rca];
    }
  }
}
