/** How dedup keys are stored: `"dedup:<component>"` holds the claimer's placeholder
    `"pending:<document>"` or a work item's id in decimal, and `int` reads it back. */
module DedupKeys {
  import opened Types
  import opened Text
  import opened Site

  const PREFIX := "dedup:"
  const PENDING := "pending:"

  /** A stored string and when it expires. */
  datatype Cell = Cell(text: string, expires: int)

  function KeyName(c: ComponentId): string {
    PREFIX + c
  }

  function Printed(v: Dedup): string {
    match v
    case Pending(doc) => PENDING + Decimal(doc)
    case Claimed(item) => Decimal(item)
  }

  function CellOf(k: Key): Cell {
    Cell(Printed(k.value), k.expires)
  }

  /** What `get_open_work_item` returns, or the ValueError of `int` on a placeholder. */
  datatype Lookup = NoItem | Found(item: nat) | BadNumber

  function LookupOf(v: Option<Dedup>): Lookup {
    match v
    case None => NoItem
    case Some(Claimed(item)) => Found(item)
    case Some(Pending(_)) => BadNumber
  }

  /** A claimer's placeholder is never a number, so `int` raises on it. */
  lemma PlaceholderIsNoNumber(mongoId: string)
    ensures ParseInt(PENDING + mongoId) == None
  {
    assert !IsDigit((PENDING + mongoId)[0]);
  }

  /** Reading a stored string as a number gives the id of a claimed key, and fails on a
      placeholder; an empty string, which would read as no key, is never stored. */
  lemma ReadPrinted(v: Dedup)
    ensures Printed(v) != ""
    ensures ParseInt(Printed(v)) == if v.Claimed? then Some(v.item) else None
  {
    match v {
      case Pending(doc) => PlaceholderIsNoNumber(Decimal(doc));
      case Claimed(item) => ParseDecimal(item);
    }
  }

  /** A key and its values as the backend writes them. */
  lemma PrintedForms()
    ensures KeyName("db") == "dedup:db" && Printed(Pending(7)) == "pending:7" && Printed(Claimed(12)) == "12"
  {
    DecimalIsCanonical(7);
    DecimalIsCanonical(12);
    DecimalIsCanonical(1);
    DecimalIsCanonical(2);
  }

  lemma KeyNameInjective(c: ComponentId, d: ComponentId)
    ensures KeyName(c) == KeyName(d) <==> c == d
  {
    if KeyName(c) == KeyName(d) {
      assert KeyName(c)[|PREFIX|..] == c && KeyName(d)[|PREFIX|..] == d;
    }
  }

  /** A component has a cell exactly if it has a key, and that cell holds the key's printed
      value and its expiry. */
  ghost predicate CellOk(cells: map<string, Cell>, keys: map<ComponentId, Key>, c: ComponentId) {
    && (c in keys <==> KeyName(c) in cells)
    && (c in keys ==> cells[KeyName(c)] == CellOf(keys[c]))
  }

  /** The cells stand for the keys. */
  ghost predicate Stands(cells: map<string, Cell>, keys: map<ComponentId, Key>) {
    forall c :: CellOk(cells, keys, c)
  }

  lemma SetStands(cells: map<string, Cell>, keys: map<ComponentId, Key>, c: ComponentId, k: Key)
    requires Stands(cells, keys)
    ensures Stands(cells[KeyName(c) := CellOf(k)], keys[c := k])
  {
    var cells', keys' := cells[KeyName(c) := CellOf(k)], keys[c := k];
    forall d ensures CellOk(cells', keys', d) {
      assert CellOk(cells, keys, d);
      KeyNameInjective(d, c);
    }
  }

  lemma DeleteStands(cells: map<string, Cell>, keys: map<ComponentId, Key>, c: ComponentId)
    requires Stands(cells, keys)
    ensures Stands(cells - {KeyName(c)}, keys - {c})
  {
    var cells', keys' := cells - {KeyName(c)}, keys - {c};
    forall d ensures CellOk(cells', keys', d) {
      assert CellOk(cells, keys, d);
      KeyNameInjective(d, c);
    }
  }

  /** The cell of a key is live exactly while the key is. */
  lemma LiveCell(cells: map<string, Cell>, keys: map<ComponentId, Key>, c: ComponentId, now: int)
    requires Stands(cells, keys)
    ensures KeyName(c) in cells && now < cells[KeyName(c)].expires <==> Live(keys, c, now).Some?
    ensures Live(keys, c, now).Some? ==> cells[KeyName(c)].text == Printed(Live(keys, c, now).value)
  {
    assert CellOk(cells, keys, c);
  }
}
