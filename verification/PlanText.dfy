/** The private read plans: printed by the live validator, read back by the
    process that owns the mappings. */
module PlanText {
  import opened Hardware
  import opened Results
  import opened Numerals

  const MAX_MEMBERS: nat := 32
  const MAX_ENTRIES: nat := 0x100_0000

  // ----- Rows

  function RowText(row: seq<nat>): string {
    "\n" + Spaced(row)
  }

  function RowsText(rows: seq<seq<nat>>, i: nat): string
    requires i <= |rows|
    decreases |rows| - i
  {
    if i == |rows| then "" else RowText(rows[i]) + RowsText(rows, i + 1)
  }

  /** Reads rows i..n-1, stopping at the first that `ok` refuses. */
  function ReadRows(s: string, i: nat, n: nat, limits: seq<nat>,
                    ok: (nat, seq<nat>) -> bool): (r: Option<(seq<seq<nat>>, string)>)
    requires i <= n
    ensures r.Some? ==> |r.value.0| == n - i
    decreases n - i
  {
    if i == n then Some(([], s))
    else
      var row := ReadNumbers(s, limits);
      if row.None? || !ok(i, row.value.0) then None
      else
        var rest := ReadRows(row.value.1, i + 1, n, limits, ok);
        if rest.None? then None else Some(([row.value.0] + rest.value.0, rest.value.1))
  }

  lemma {:induction false} EachRowRead(s: string, i: nat, n: nat, limits: seq<nat>, ok: (nat, seq<nat>) -> bool, j: nat)
    requires i <= j < n && ReadRows(s, i, n, limits, ok).Some?
    ensures var row := ReadRows(s, i, n, limits, ok).value.0[j - i]; |row| == |limits| && ok(j, row)
    decreases n - i
  {
    hide ReadNumbers;
    if i < j {
      EachRowRead(ReadNumbers(s, limits).value.1, i + 1, n, limits, ok, j);
    }
  }

  predicate RowsFit(rows: seq<seq<nat>>, i: nat, limits: seq<nat>, ok: (nat, seq<nat>) -> bool) {
    forall j :: i <= j < |rows| ==> Fit(rows[j], limits) && ok(j, rows[j])
  }

  lemma {:induction false} ReadsRows(rows: seq<seq<nat>>, i: nat, limits: seq<nat>, ok: (nat, seq<nat>) -> bool,
                                     s: string)
    requires i <= |rows| && limits != [] && (s == "" || !IsDigit(s[0]))
    requires forall j :: 0 <= j < |rows| ==> |rows[j]| == |limits|
    ensures ReadRows(RowsText(rows, i) + s, i, |rows|, limits, ok)
         == if RowsFit(rows, i, limits, ok) then Some((rows[i..], s)) else None
    decreases |rows| - i
  {
    hide ReadNumbers, Spaced, Fit;
    if i == |rows| {
      assert RowsText(rows, i) + s == s;
    } else {
      var rest := RowsText(rows, i + 1) + s;
      assert RowsText(rows, i) + s == "\n" + Spaced(rows[i]) + rest;
      assert rest == "" || !IsDigit(rest[0]);
      ReadsSpaced("\n", rows[i], limits, rest);
      ReadsRows(rows, i + 1, limits, ok, s);
      assert rows[i..] == [rows[i]] + rows[i + 1..];
      assert RowsFit(rows, i, limits, ok) <==> Fit(rows[i], limits) && ok(i, rows[i]) && RowsFit(rows, i + 1, limits, ok);
    }
  }

  // ----- A whole plan: magic word, header, rows

  function Text(magic: string, header: seq<nat>, rows: seq<seq<nat>>): string {
    magic + " " + Spaced(header) + RowsText(rows, 0) + "\n"
  }

  function Words(n: nat): seq<nat> {
    seq(n, _ => TWO_64)
  }

  predicate VisibleWord(word: string) {
    word != "" && forall i :: 0 <= i < |word| ==> !IsSpace(word[i])
  }

  /** The two readers differ in their magic word, their widths and their checks. */
  datatype Format = Format(
    magic: string, headerWidth: nat, rowLimits: seq<nat>, countAt: nat,
    headerOk: seq<nat> -> bool, rowOk: (nat, seq<nat>) -> bool)
  {
    predicate Sensible() {
      VisibleWord(magic) && countAt < headerWidth && rowLimits != []
    }
  }

  datatype Table = Table(header: seq<nat>, rows: seq<seq<nat>>)

  function Read(f: Format, text: string): (r: Result<Table>)
    requires f.Sensible()
    ensures r.Ok? ==> |r.value.header| == f.headerWidth && f.headerOk(r.value.header)
    ensures r.Ok? ==> |r.value.rows| == r.value.header[f.countAt]
  {
    var magic := ReadWord(text);
    :- Need(magic.Some? && magic.value.0 == f.magic, "read plan mismatch");
    var header := ReadNumbers(magic.value.1, Words(f.headerWidth));
    :- Need(header.Some? && f.headerOk(header.value.0), "read plan mismatch");
    var rows := ReadRows(header.value.1, 0, header.value.0[f.countAt], f.rowLimits, f.rowOk);
    :- Need(rows.Some?, "channel mismatch");
    :- Need(ReadWord(rows.value.1).None?, "trailing plan fields");
    Ok(Table(header.value.0, rows.value.0))
  }

  lemma RowsOfRead(f: Format, text: string)
    requires f.Sensible() && Read(f, text).Ok?
    ensures var rows := Read(f, text).value.rows;
            forall j :: 0 <= j < |rows| ==> |rows[j]| == |f.rowLimits| && f.rowOk(j, rows[j])
  {
    hide ReadNumbers, ReadWord, ReadRows;
    var header := ReadNumbers(ReadWord(text).value.1, Words(f.headerWidth)).value;
    var rows := Read(f, text).value.rows;
    forall j | 0 <= j < |rows| ensures |rows[j]| == |f.rowLimits| && f.rowOk(j, rows[j]) {
      EachRowRead(header.1, 0, |rows|, f.rowLimits, f.rowOk, j);
    }
  }

  predicate Shaped(f: Format, t: Table) {
    && |t.header| == f.headerWidth > f.countAt && t.header[f.countAt] == |t.rows|
    && forall j :: 0 <= j < |t.rows| ==> |t.rows[j]| == |f.rowLimits|
  }

  predicate Passes(f: Format, t: Table) {
    Fit(t.header, Words(f.headerWidth)) && f.headerOk(t.header) && RowsFit(t.rows, 0, f.rowLimits, f.rowOk)
  }

  /** Reading a printed plan with anything behind it gives back exactly the printed
      plan when it passes and nothing but whitespace follows, and fails otherwise. */
  lemma ReadsPrinted(f: Format, t: Table, extra: string)
    requires f.Sensible() && Shaped(f, t)
    ensures if Passes(f, t) && Blank(extra)
            then Read(f, Text(f.magic, t.header, t.rows) + extra) == Ok(t)
            else Read(f, Text(f.magic, t.header, t.rows) + extra).Err?
  {
    hide ReadNumbers, ReadWord, ReadRows, Spaced, RowsText, Fit, RowsFit;
    var end := "\n" + extra;
    var afterHeader := RowsText(t.rows, 0) + end;
    var afterMagic := " " + Spaced(t.header) + afterHeader;
    assert Text(f.magic, t.header, t.rows) + extra == f.magic + afterMagic;
    ReadsWord(f.magic, afterMagic);
    StartsBlank(t.rows, end);
    ReadsSpaced(" ", t.header, Words(f.headerWidth), afterHeader);
    ReadsRows(t.rows, 0, f.rowLimits, f.rowOk, end);
    assert t.rows[0..] == t.rows;
    NothingBehind(extra);
  }

  lemma StartsBlank(rows: seq<seq<nat>>, end: string)
    requires end != "" && IsSpace(end[0])
    ensures var s := RowsText(rows, 0) + end; s != "" && !IsDigit(s[0])
  {
  }

  lemma NothingBehind(extra: string)
    ensures ReadWord("\n" + extra).None? <==> Blank(extra)
  {
    var s := "\n" + extra;
    TrimBlank(s);
    if Blank(extra) {
      assert Blank(s);
    } else {
      var i :| 0 <= i < |extra| && !IsSpace(extra[i]);
      assert s[i + 1] == extra[i];
      assert !Blank(s);
    }
  }

  // ----- The graph plan

  datatype Token = Token(handle: nat, generation: nat)

  /** What the reading process knows of itself. */
  datatype Owner = Owner(pid: nat, sequence: nat, registry: nat, members: seq<Token>)

  datatype GraphMember = GraphMember(token: Token, userd: nat, ring: nat, entries: nat)

  datatype GraphPlan = GraphPlan(owner: nat, sequence: nat, registry: nat, active: nat, members: seq<GraphMember>)

  function GraphRow(m: GraphMember, i: nat): seq<nat> {
    [i, m.token.handle, m.token.generation, m.userd, m.ring, m.entries]
  }

  function GraphTable(p: GraphPlan): (t: Table)
    ensures |t.header| == 5 && |t.rows| == |p.members|
    ensures forall i :: 0 <= i < |t.rows| ==> t.rows[i] == GraphRow(p.members[i], i)
  {
    Table([p.owner, p.sequence, p.registry, |p.members|, p.active],
          seq(|p.members|, i requires 0 <= i < |p.members| => GraphRow(p.members[i], i)))
  }

  const GRAPH_MAGIC := "GRAPH_RING_PLAN_V1"

  predicate GraphHeaderOk(o: Owner, h: seq<nat>) {
    && |h| == 5 && h[0] == o.pid && h[1] == o.sequence && h[2] == o.registry
    && 0 < h[3] == |o.members| <= MAX_MEMBERS && h[4] < h[3]
  }

  predicate TokenOk(o: Owner, i: nat, row: seq<nat>) {
    |row| >= 3 && i < |o.members| && row[0] == i && row[1] == o.members[i].handle && row[2] == o.members[i].generation
  }

  function GraphFormat(o: Owner): (f: Format)
    ensures f.Sensible()
  {
    Format(GRAPH_MAGIC, 5, Words(5) + [TWO_32], 3,
           (h: seq<nat>) => GraphHeaderOk(o, h), (i: nat, row: seq<nat>) => TokenOk(o, i, row))
  }

  function GraphOf(t: Table): GraphPlan
    requires |t.header| == 5 && forall i :: 0 <= i < |t.rows| ==> |t.rows[i]| == 6
  {
    GraphPlan(t.header[0], t.header[1], t.header[2], t.header[4],
              seq(|t.rows|, i requires 0 <= i < |t.rows| =>
                var row := t.rows[i]; GraphMember(Token(row[1], row[2]), row[3], row[4], row[5])))
  }

  function GraphResult(o: Owner, text: string): Result<GraphPlan> {
    var t :- Read(GraphFormat(o), text);
    RowsOfRead(GraphFormat(o), text);
    Ok(GraphOf(t))
  }

  method PrintGraphPlan(p: GraphPlan) returns (text: string)
    ensures text == Text(GRAPH_MAGIC, GraphTable(p).header, GraphTable(p).rows)
  {
    var rows := GraphTable(p).rows;
    text := GRAPH_MAGIC + " " + Spaced([p.owner, p.sequence, p.registry, |p.members|, p.active]);
    ghost var head := text;
    for i := 0 to |p.members|
      invariant text + RowsText(rows, i) == head + RowsText(rows, 0)
    {
      var m := p.members[i];
      assert RowsText(rows, i) == RowText(rows[i]) + RowsText(rows, i + 1);
      text := text + RowText([i, m.token.handle, m.token.generation, m.userd, m.ring, m.entries]);
    }
    assert text == head + RowsText(rows, 0);
    text := text + "\n";
  }

  method ReadGraphPlan(text: string, o: Owner) returns (plan: Result<GraphPlan>)
    ensures plan == GraphResult(o, text)
  {
    hide ReadNumbers, ReadWord, GraphHeaderOk, TokenOk, GraphOf, RowsText;
    var f := GraphFormat(o);
    var magic := ReadWord(text);
    if magic.None? || magic.value.0 != GRAPH_MAGIC {
      return Err("read plan mismatch");
    }
    var header := ReadNumbers(magic.value.1, Words(5));
    if header.None? || !GraphHeaderOk(o, header.value.0) {
      return Err("read plan mismatch");
    }
    var h := header.value.0;
    assert f.headerOk(h);
    var rest := header.value.1;
    var rows: seq<seq<nat>> := [];
    NothingInFront(ReadRows(rest, 0, h[3], f.rowLimits, f.rowOk));
    for i := 0 to h[3]
      invariant |rows| == i && forall j :: 0 <= j < i ==> |rows[j]| == 6
      invariant ReadRows(header.value.1, 0, h[3], f.rowLimits, f.rowOk)
             == Prefixed(rows, ReadRows(rest, i, h[3], f.rowLimits, f.rowOk))
    {
      var row := ReadNumbers(rest, Words(5) + [TWO_32]);
      ReadRowsStep(rest, i, h[3], f.rowLimits, f.rowOk, rows);
      if row.None? || !TokenOk(o, i, row.value.0) {
        return Err("channel mismatch");
      }
      rows, rest := rows + [row.value.0], row.value.1;
    }
    assert rows + [] == rows;
    var extra := ReadWord(rest);
    if extra.Some? {
      return Err("trailing plan fields");
    }
    return Ok(GraphOf(Table(h, rows)));
  }

  lemma NothingInFront(r: Option<(seq<seq<nat>>, string)>)
    ensures Prefixed([], r) == r
  {
    assert r.Some? ==> [] + r.value.0 == r.value.0;
  }

  /** One more row read in front of the others. */
  lemma ReadRowsStep(s: string, i: nat, n: nat, limits: seq<nat>, ok: (nat, seq<nat>) -> bool, front: seq<seq<nat>>)
    requires i < n
    ensures var row := ReadNumbers(s, limits);
            var after := if row.None? || !ok(i, row.value.0) then None
                         else Prefixed(front + [row.value.0], ReadRows(row.value.1, i + 1, n, limits, ok));
            Prefixed(front, ReadRows(s, i, n, limits, ok)) == after
  {
    hide ReadNumbers;
    var row := ReadNumbers(s, limits);
    if row.Some? && ok(i, row.value.0) {
      var rest := ReadRows(row.value.1, i + 1, n, limits, ok);
      if rest.Some? {
        assert front + ([row.value.0] + rest.value.0) == front + [row.value.0] + rest.value.0;
      }
    }
  }

  function Prefixed(front: seq<seq<nat>>, r: Option<(seq<seq<nat>>, string)>): Option<(seq<seq<nat>>, string)> {
    if r.None? then None else Some((front + r.value.0, r.value.1))
  }

  /** The plan names this owner's channels, and every number fits its type. */
  predicate GraphPlanOk(p: GraphPlan, o: Owner) {
    && p.owner == o.pid && p.sequence == o.sequence && p.registry == o.registry
    && IsU64(p.owner) && IsU64(p.sequence) && IsU64(p.registry)
    && 0 < |p.members| == |o.members| <= 32 && p.active < |p.members|
    && forall i :: 0 <= i < |p.members| ==>
         && p.members[i].token == o.members[i]
         && IsU64(p.members[i].token.handle) && IsU64(p.members[i].token.generation)
         && IsU64(p.members[i].userd) && IsU64(p.members[i].ring) && IsU32(p.members[i].entries)
  }

  /** For any member count: reading a printed graph plan returns exactly the plan
      printed, if it is the reader's own and only whitespace follows, and is
      refused otherwise. */
  lemma GraphPlanRoundTrip(p: GraphPlan, o: Owner, extra: string)
    ensures var r := GraphResult(o, Text(GRAPH_MAGIC, GraphTable(p).header, GraphTable(p).rows) + extra);
            if GraphPlanOk(p, o) && Blank(extra) then r == Ok(p) else r.Err?
  {
    hide Read, Text;
    var f, t := GraphFormat(o), GraphTable(p);
    ReadsPrinted(f, t, extra);
    GraphPasses(p, o);
    assert GraphOf(t).members == p.members;
  }

  lemma GraphPasses(p: GraphPlan, o: Owner)
    ensures Passes(GraphFormat(o), GraphTable(p)) <==> GraphPlanOk(p, o)
  {
    var f, t := GraphFormat(o), GraphTable(p);
    var limits := Words(5) + [TWO_32];
    assert |p.members| <= MAX_MEMBERS ==> |p.members| < TWO_64;
    forall i | 0 <= i < |p.members| && |p.members| <= MAX_MEMBERS && |o.members| == |p.members|
      ensures Fit(t.rows[i], limits) && f.rowOk(i, t.rows[i])
         <==> && p.members[i].token == o.members[i]
              && p.members[i].token.handle < TWO_64 && p.members[i].token.generation < TWO_64
              && p.members[i].userd < TWO_64 && p.members[i].ring < TWO_64 && p.members[i].entries < TWO_32
    {
      RowFits(p.members[i], i);
    }
  }

  lemma RowFits(m: GraphMember, i: nat)
    requires i < MAX_MEMBERS
    ensures Fit(GraphRow(m, i), Words(5) + [TWO_32])
       <==> && m.token.handle < TWO_64 && m.token.generation < TWO_64
            && m.userd < TWO_64 && m.ring < TWO_64 && m.entries < TWO_32
  {
    var row, limits := GraphRow(m, i), Words(5) + [TWO_32];
    assert Fit(row, limits) <==> row[0] < limits[0] && row[1] < limits[1] && row[2] < limits[2] &&
                                 row[3] < limits[3] && row[4] < limits[4] && row[5] < limits[5];
  }

  // ----- The USERD plan

  datatype UserdMember = UserdMember(token: Token, address: nat, entries: nat)

  datatype UserdPlan = UserdPlan(owner: nat, sequence: nat, registry: nat, members: seq<UserdMember>)

  const USERD_MAGIC := "USERD_READ_PLAN_V1"

  function UserdRow(m: UserdMember, i: nat): seq<nat> {
    [i, m.token.handle, m.token.generation, m.address, m.entries]
  }

  function UserdTable(p: UserdPlan): (t: Table)
    ensures |t.header| == 4 && |t.rows| == |p.members|
    ensures forall i :: 0 <= i < |t.rows| ==> t.rows[i] == UserdRow(p.members[i], i)
  {
    Table([p.owner, p.sequence, p.registry, |p.members|],
          seq(|p.members|, i requires 0 <= i < |p.members| => UserdRow(p.members[i], i)))
  }

  predicate UserdHeaderOk(o: Owner, h: seq<nat>) {
    && |h| == 4 && h[0] == o.pid && h[1] == o.sequence && h[2] == o.registry
    && h[3] == |o.members| <= MAX_MEMBERS
  }

  predicate UserdRowOk(o: Owner, i: nat, row: seq<nat>) {
    && |row| == 5 && TokenOk(o, i, row)
    && row[3] != 0 && row[3] % USERD_BYTES == 0 && 0 < row[4] <= MAX_ENTRIES
  }

  function UserdFormat(o: Owner): (f: Format)
    ensures f.Sensible()
  {
    Format(USERD_MAGIC, 4, Words(5), 3,
           (h: seq<nat>) => UserdHeaderOk(o, h), (i: nat, row: seq<nat>) => UserdRowOk(o, i, row))
  }

  /** The reader keeps only the addresses. */
  function AddressesOf(t: Table): seq<nat>
    requires forall i :: 0 <= i < |t.rows| ==> |t.rows[i]| == 5
  {
    seq(|t.rows|, i requires 0 <= i < |t.rows| => t.rows[i][3])
  }

  function UserdResult(o: Owner, text: string): Result<seq<nat>> {
    var t :- Read(UserdFormat(o), text);
    RowsOfRead(UserdFormat(o), text);
    Ok(AddressesOf(t))
  }

  method ReadUserdPlan(text: string, o: Owner) returns (addresses: Result<seq<nat>>)
    ensures addresses == UserdResult(o, text)
  {
    hide ReadNumbers, ReadWord, UserdHeaderOk, UserdRowOk, RowsText;
    var f := UserdFormat(o);
    var magic := ReadWord(text);
    if magic.None? || magic.value.0 != USERD_MAGIC {
      return Err("read plan mismatch");
    }
    var header := ReadNumbers(magic.value.1, Words(4));
    if header.None? || !UserdHeaderOk(o, header.value.0) {
      return Err("read plan mismatch");
    }
    var h := header.value.0;
    assert f.headerOk(h);
    var rest := header.value.1;
    ghost var rows: seq<seq<nat>> := [];
    var kept: seq<nat> := [];
    NothingInFront(ReadRows(rest, 0, h[3], f.rowLimits, f.rowOk));
    for i := 0 to h[3]
      invariant |rows| == |kept| == i && forall j :: 0 <= j < i ==> |rows[j]| == 5 && kept[j] == rows[j][3]
      invariant ReadRows(header.value.1, 0, h[3], f.rowLimits, f.rowOk)
             == Prefixed(rows, ReadRows(rest, i, h[3], f.rowLimits, f.rowOk))
    {
      var row := ReadNumbers(rest, Words(5));
      ReadRowsStep(rest, i, h[3], f.rowLimits, f.rowOk, rows);
      if row.None? || !UserdRowOk(o, i, row.value.0) {
        return Err("channel mismatch");
      }
      kept, rows, rest := kept + [row.value.0[3]], rows + [row.value.0], row.value.1;
    }
    assert rows + [] == rows;
    assert kept == AddressesOf(Table(h, rows));
    var extra := ReadWord(rest);
    if extra.Some? {
      return Err("trailing plan fields");
    }
    return Ok(kept);
  }

  predicate UserdMemberOk(m: UserdMember) {
    && IsU64(m.token.handle) && IsU64(m.token.generation)
    && m.address != 0 && IsU64(m.address) && m.address % 512 == 0 && 0 < m.entries <= 0x100_0000
  }

  predicate UserdPlanOk(p: UserdPlan, o: Owner) {
    && p.owner == o.pid && p.sequence == o.sequence && p.registry == o.registry
    && IsU64(p.owner) && IsU64(p.sequence) && IsU64(p.registry)
    && |p.members| == |o.members| <= 32
    && forall i :: 0 <= i < |p.members| ==> p.members[i].token == o.members[i] && UserdMemberOk(p.members[i])
  }

  /** The same for the USERD plan: exactly the printed addresses, in order, or refusal. */
  lemma UserdPlanRoundTrip(p: UserdPlan, o: Owner, extra: string)
    ensures var r := UserdResult(o, Text(USERD_MAGIC, UserdTable(p).header, UserdTable(p).rows) + extra);
            if UserdPlanOk(p, o) && Blank(extra)
            then r.Ok? && |r.value| == |p.members| && forall i :: 0 <= i < |p.members| ==> r.value[i] == p.members[i].address
            else r.Err?
  {
    hide Read, Text;
    ReadsPrinted(UserdFormat(o), UserdTable(p), extra);
    UserdPasses(p, o);
  }

  lemma UserdPasses(p: UserdPlan, o: Owner)
    ensures Passes(UserdFormat(o), UserdTable(p)) <==> UserdPlanOk(p, o)
  {
    var f, t := UserdFormat(o), UserdTable(p);
    assert |p.members| <= MAX_MEMBERS ==> |p.members| < TWO_64;
    forall i | 0 <= i < |p.members| && |p.members| <= MAX_MEMBERS && |o.members| == |p.members|
      ensures Fit(t.rows[i], Words(5)) && f.rowOk(i, t.rows[i])
         <==> p.members[i].token == o.members[i] && UserdMemberOk(p.members[i])
    {
      var row := UserdRow(p.members[i], i);
      assert Fit(row, Words(5)) <==> row[0] < TWO_64 && row[1] < TWO_64 && row[2] < TWO_64 && row[3] < TWO_64 && row[4] < TWO_64;
    }
  }
}
