/**
 Legal invoice numbers (src/modules/billing/invoice-numbering.ts): their text, and their allocation
 under concurrency.
 */
module InvoiceNumbering {
  import opened Common

  const INVOICE_NUMBER_PADDING: nat := 4

  function Decimal(n: nat): (s: string)
    ensures |s| > 0 && AllDigits(s) && ReadDecimal(s) == n
  {
    var last := [('0' as int + n % 10) as char];
    if n < 10 then last
    else
      var s := Decimal(n / 10) + last;
      assert s[..|s| - 1] == Decimal(n / 10);
      s
  }

  predicate AllDigits(s: string) {
    forall i :: 0 <= i < |s| ==> '0' <= s[i] <= '9'
  }

  function ReadDecimal(s: string): int {
    if s == [] then 0 else 10 * ReadDecimal(s[..|s| - 1]) + (s[|s| - 1] as int - '0' as int)
  }

  /** `String(n).padStart(4, '0')` */
  function Padded(s: string): string {
    if |s| < INVOICE_NUMBER_PADDING then seq(INVOICE_NUMBER_PADDING - |s|, _ => '0') + s else s
  }

  function YearText(year: int): string {
    if year < 0 then "-" + Decimal(-year) else Decimal(year)
  }

  function InvoiceNumber(year: int, n: nat): string {
    YearText(year) + "-" + Padded(Decimal(n))
  }

  lemma {:induction false} LeadingZeros(k: nat, s: string)
    requires AllDigits(s)
    ensures AllDigits(seq(k, _ => '0') + s)
    ensures ReadDecimal(seq(k, _ => '0') + s) == ReadDecimal(s)
  {
    var z := seq(k, _ => '0') + s;
    if s != [] {
      assert z[..|z| - 1] == seq(k, _ => '0') + s[..|s| - 1];
      LeadingZeros(k, s[..|s| - 1]);
    } else if k > 0 {
      assert z[..|z| - 1] == seq(k - 1, _ => '0') + [];
      LeadingZeros(k - 1, []);
    }
  }

  lemma LastDashComesLast(a: string, b: string, i: nat)
    requires AllDigits(b) && i < |a + "-" + b| && (a + "-" + b)[i] == '-'
    ensures i <= |a|
  {
    assert forall k :: |a| < k < |a + "-" + b| ==> (a + "-" + b)[k] == b[k - |a| - 1];
  }

  lemma LastDashSplits(a: string, b: string, a': string, b': string)
    requires AllDigits(b) && AllDigits(b') && a + "-" + b == a' + "-" + b'
    ensures a == a' && b == b'
  {
    var s := a + "-" + b;
    assert s[|a|] == '-' && s[|a'|] == '-';
    LastDashComesLast(a, b, |a'|);
    LastDashComesLast(a', b', |a|);
    assert s[..|a|] == a && s[..|a'|] == a';
    assert s[|a| + 1..] == b && s[|a'| + 1..] == b';
  }

  lemma PaddedReadsBack(n: nat)
    ensures AllDigits(Padded(Decimal(n))) && ReadDecimal(Padded(Decimal(n))) == n
  {
    LeadingZeros(if |Decimal(n)| < 4 then 4 - |Decimal(n)| else 0, Decimal(n));
  }

  lemma YearTextIsInjective(year: int, year': int)
    requires YearText(year) == YearText(year')
    ensures year == year'
  {
    assert '0' <= Decimal(if year < 0 then -year else year)[0];
    assert '0' <= Decimal(if year' < 0 then -year' else year')[0];
    if year < 0 {
      assert YearText(year)[1..] == Decimal(-year);
      assert YearText(year')[1..] == Decimal(-year');
    }
  }

  /** The text determines year and number, also once numbers outgrow their four digits. */
  lemma InvoiceNumberIsInjective(year: int, n: nat, year': int, n': nat)
    requires InvoiceNumber(year, n) == InvoiceNumber(year', n')
    ensures year == year' && n == n'
  {
    PaddedReadsBack(n);
    PaddedReadsBack(n');
    LastDashSplits(YearText(year), Padded(Decimal(n)), YearText(year'), Padded(Decimal(n')));
    YearTextIsInjective(year, year');
  }

  lemma {:induction false} NoLeadingZero(n: nat)
    requires n > 0
    ensures Decimal(n)[0] != '0'
  {
    if n >= 10 {
      NoLeadingZero(n / 10);
      assert Decimal(n)[0] == Decimal(n / 10)[0];
    }
  }

  /** The text is the year, a dash, and the number in at least four digits, with no zero in front of more. */
  lemma NumberReads(year: nat, n: nat) returns (p: nat)
    ensures var text := InvoiceNumber(year, n);
            && p < |text| && text[p] == '-'
            && AllDigits(text[..p]) && ReadDecimal(text[..p]) == year && (year > 0 ==> text[0] != '0')
            && AllDigits(text[p + 1..]) && ReadDecimal(text[p + 1..]) == n
            && |text[p + 1..]| >= 4 && (|text[p + 1..]| > 4 ==> text[p + 1] != '0')
  {
    hide ReadDecimal, AllDigits;
    p := |Decimal(year)|;
    var text := InvoiceNumber(year, n);
    PaddedReadsBack(n);
    assert text[..p] == Decimal(year) && text[p + 1..] == Padded(Decimal(n));
    if year > 0 {
      NoLeadingZero(year);
    }
    if n > 0 {
      NoLeadingZero(n);
    }
  }

  // ---- Concurrent transactions ----

  /** Where a transaction stands between BEGIN and its end; numbers are what it read or wrote. */
  datatype Phase = Started | RowReady | Locked(read: nat) | Saved(number: nat) | Inserted(number: nat)

  /** `created`: this transaction inserted the year's counter row and has not committed it. */
  datatype Tx = Tx(year: int, phase: Phase, created: bool)

  type TxId = nat

  datatype Row = Row(year: int, number: nat)

  /** The committed tables, and what the open transactions have done on top of them. */
  datatype Db = Db(sequences: map<int, nat>, invoices: seq<Row>, open: map<TxId, Tx>)

  datatype Step =
    | Begin(year: int)
    | EnsureRow
    | LockRow
    | SaveIncrement
    | InsertInvoice
    | Commit
    | Abort

  function Last(sequences: map<int, nat>, year: int): nat {
    if year in sequences then sequences[year] else 0
  }

  /** A transaction has the year's row locked once it has created or selected it for update. */
  predicate Holds(tx: Tx) {
    tx.created || tx.phase.Locked? || tx.phase.Saved? || tx.phase.Inserted?
  }

  predicate HeldElsewhere(db: Db, t: TxId, year: int) {
    exists u :: u in db.open && u != t && db.open[u].year == year && Holds(db.open[u])
  }

  predicate NumberTaken(db: Db, year: int, n: nat) {
    exists i :: 0 <= i < |db.invoices|
        && InvoiceNumber(db.invoices[i].year, db.invoices[i].number) == InvoiceNumber(year, n)
  }

  function At(db: Db, t: TxId, tx: Tx): Db {
    db.(open := db.open[t := tx])
  }

  /** Statements that would wait for another transaction's lock are not enabled. */
  ghost predicate Next(db: Db, t: TxId, step: Step, db': Db) {
    if step.Begin? then
      t !in db.open && db' == At(db, t, Tx(step.year, Started, false))
    else
      t in db.open &&
      var tx := db.open[t];
      match step
      case EnsureRow =>
        && tx.phase == Started
        && if tx.year in db.sequences then db' == At(db, t, tx.(phase := RowReady))
           else !HeldElsewhere(db, t, tx.year) && db' == At(db, t, tx.(phase := RowReady, created := true))
      case LockRow =>
        && tx.phase == RowReady
        && (tx.created || tx.year in db.sequences)
        && !HeldElsewhere(db, t, tx.year)
        && db' == At(db, t, tx.(phase := Locked(Last(db.sequences, tx.year))))
      case SaveIncrement =>
        && tx.phase.Locked?
        && db' == At(db, t, tx.(phase := Saved(tx.phase.read + 1)))
      case InsertInvoice =>
        && tx.phase.Saved?
        && !NumberTaken(db, tx.year, tx.phase.number)
        && db' == At(db, t, tx.(phase := Inserted(tx.phase.number)))
      case Commit =>
        && tx.phase.Inserted?
        && db' == Db(db.sequences[tx.year := tx.phase.number],
                     db.invoices + [Row(tx.year, tx.phase.number)],
                     db.open - {t})
      case Abort =>
        db' == db.(open := db.open - {t})
      case Begin(_) => false
  }

  function NumbersOf(invoices: seq<Row>, year: int): seq<nat> {
    if invoices == [] then []
    else
      var last := invoices[|invoices| - 1];
      NumbersOf(invoices[..|invoices| - 1], year) + if last.year == year then [last.number] else []
  }

  /** The legal obligation: in commit order, each year's invoices are numbered 1, 2, ... up to its counter. */
  ghost predicate GapFree(sequences: map<int, nat>, invoices: seq<Row>) {
    forall year :: NumbersOf(invoices, year) == UpTo(Last(sequences, year))
  }

  lemma GapFreeExtends(sequences: map<int, nat>, invoices: seq<Row>, year: int)
    requires GapFree(sequences, invoices)
    ensures GapFree(sequences[year := Last(sequences, year) + 1], invoices + [Row(year, Last(sequences, year) + 1)])
  {
    var row := Row(year, Last(sequences, year) + 1);
    assert (invoices + [row])[..|invoices|] == invoices;
    forall y
      ensures NumbersOf(invoices + [row], y) == UpTo(Last(sequences[year := row.number], y))
    {
      assert NumbersOf(invoices, y) == UpTo(Last(sequences, y));
    }
  }

  ghost predicate TxInv(db: Db, t: TxId)
    requires t in db.open
  {
    var tx := db.open[t];
    && (Holds(tx) ==> !HeldElsewhere(db, t, tx.year))
    && (tx.created ==> tx.year !in db.sequences)
    && (tx.phase.Locked? ==> tx.phase.read == Last(db.sequences, tx.year))
    && (tx.phase.Saved? || tx.phase.Inserted? ==> tx.phase.number == Last(db.sequences, tx.year) + 1)
  }

  ghost predicate Inv(db: Db) {
    && GapFree(db.sequences, db.invoices)
    && forall t :: t in db.open ==> TxInv(db, t)
  }

  lemma NextKeepsInv(db: Db, t: TxId, step: Step, db': Db)
    requires Inv(db) && Next(db, t, step, db')
    ensures Inv(db')
  {
    if step == Commit {
      GapFreeExtends(db.sequences, db.invoices, db.open[t].year);
    }
    forall u | u in db'.open
      ensures TxInv(db', u)
    {
      assert u in db.open ==> TxInv(db, u);
      assert t in db.open ==> TxInv(db, t);
      if u in db.open && u != t && Holds(db.open[u]) {
        OthersStayApart(db, t, step, db', u);
      }
    }
  }

  lemma OthersStayApart(db: Db, t: TxId, step: Step, db': Db, u: TxId)
    requires Inv(db) && Next(db, t, step, db')
    requires u in db.open && u in db'.open && u != t && Holds(db.open[u])
    ensures TxInv(db', u)
  {
    assert TxInv(db, u);
    var year := db.open[u].year;
    if t in db.open && db.open[t].year == year {
      assert !Holds(db.open[t]);
      assert HeldElsewhere(db, t, year);
    }
  }

  ghost predicate Run(run: seq<Db>, steps: seq<(TxId, Step)>) {
    && |run| == |steps| + 1
    && run[0] == Db(map[], [], map[])
    && forall i :: 0 <= i < |steps| ==> Next(run[i], steps[i].0, steps[i].1, run[i + 1])
  }

  lemma {:induction false} RunKeepsInv(run: seq<Db>, steps: seq<(TxId, Step)>, i: nat)
    requires Run(run, steps) && i < |run|
    ensures Inv(run[i])
  {
    if i == 0 {
      assert forall year :: NumbersOf([], year) == UpTo(0);
    } else {
      RunKeepsInv(run, steps, i - 1);
      NextKeepsInv(run[i - 1], steps[i - 1].0, steps[i - 1].1, run[i]);
    }
  }

  lemma {:induction false} NumbersAreListed(invoices: seq<Row>, i: nat)
    requires i < |invoices|
    ensures exists k :: 0 <= k < |NumbersOf(invoices, invoices[i].year)|
                        && NumbersOf(invoices, invoices[i].year)[k] == invoices[i].number
  {
    var init := invoices[..|invoices| - 1];
    var ns := NumbersOf(invoices, invoices[i].year);
    if i < |invoices| - 1 {
      NumbersAreListed(init, i);
      var k :| 0 <= k < |NumbersOf(init, init[i].year)| && NumbersOf(init, init[i].year)[k] == init[i].number;
      assert ns[k] == invoices[i].number;
    } else {
      assert ns[|ns| - 1] == invoices[i].number;
    }
  }

  /** A number above the counter is not in use. */
  lemma NextNumberIsFree(db: Db, year: int)
    requires GapFree(db.sequences, db.invoices)
    ensures !NumberTaken(db, year, Last(db.sequences, year) + 1)
  {
    var n := Last(db.sequences, year) + 1;
    assert NumbersOf(db.invoices, year) == UpTo(n - 1);
    forall i | 0 <= i < |db.invoices|
      ensures InvoiceNumber(db.invoices[i].year, db.invoices[i].number) != InvoiceNumber(year, n)
    {
      var row := db.invoices[i];
      NumbersAreListed(db.invoices, i);
      if InvoiceNumber(row.year, row.number) == InvoiceNumber(year, n) {
        InvoiceNumberIsInjective(row.year, row.number, year, n);
      }
    }
  }

  lemma {:induction false} NumbersOfPrefix(invoices: seq<Row>, j: nat, year: int)
    requires j <= |invoices|
    ensures NumbersOf(invoices[..j], year) <= NumbersOf(invoices, year)
  {
    if j < |invoices| {
      var init := invoices[..|invoices| - 1];
      NumbersOfPrefix(init, j, year);
      assert init[..j] == invoices[..j];
    } else {
      assert invoices[..j] == invoices;
    }
  }

  /** No two committed invoices bear the same text. */
  lemma CommittedTextsDiffer(sequences: map<int, nat>, invoices: seq<Row>, i: nat, j: nat)
    requires GapFree(sequences, invoices) && i < j < |invoices|
    ensures InvoiceNumber(invoices[i].year, invoices[i].number) != InvoiceNumber(invoices[j].year, invoices[j].number)
  {
    var year, before := invoices[j].year, invoices[..j];
    var numbers, earlier := NumbersOf(invoices, year), NumbersOf(before, year);
    assert numbers == UpTo(Last(sequences, year));
    assert invoices[..j + 1][..j] == before;
    NumbersOfPrefix(invoices, j + 1, year);
    assert NumbersOf(invoices[..j + 1], year) == earlier + [invoices[j].number];
    assert numbers[|earlier|] == invoices[j].number;
    if invoices[i].year == year {
      NumbersAreListed(before, i);
      var k :| 0 <= k < |earlier| && earlier[k] == invoices[i].number;
      assert numbers[k] == k + 1;
    }
    if InvoiceNumber(invoices[i].year, invoices[i].number) == InvoiceNumber(year, invoices[j].number) {
      InvoiceNumberIsInjective(invoices[i].year, invoices[i].number, year, invoices[j].number);
    }
  }

  /**
   Whatever transactions run, in whatever interleaving, and wherever they abort: at every
   moment each year's committed invoices are numbered 1..last without a gap or a repetition,
   and an insert is never refused by the unique index on the number.
   */
  lemma NumberingIsGapFree(run: seq<Db>, steps: seq<(TxId, Step)>, i: nat)
    requires Run(run, steps) && i < |run|
    ensures GapFree(run[i].sequences, run[i].invoices)
    ensures forall j, k :: 0 <= j < k < |run[i].invoices|
                           ==> InvoiceNumber(run[i].invoices[j].year, run[i].invoices[j].number)
                               != InvoiceNumber(run[i].invoices[k].year, run[i].invoices[k].number)
    ensures forall t :: t in run[i].open && run[i].open[t].phase.Saved?
                        ==> !NumberTaken(run[i], run[i].open[t].year, run[i].open[t].phase.number)
  {
    RunKeepsInv(run, steps, i);
    forall j, k | 0 <= j < k < |run[i].invoices|
      ensures InvoiceNumber(run[i].invoices[j].year, run[i].invoices[j].number)
              != InvoiceNumber(run[i].invoices[k].year, run[i].invoices[k].number)
    {
      CommittedTextsDiffer(run[i].sequences, run[i].invoices, j, k);
    }
    forall t | t in run[i].open && run[i].open[t].phase.Saved?
      ensures !NumberTaken(run[i], run[i].open[t].year, run[i].open[t].phase.number)
    {
      assert TxInv(run[i], t);
      NextNumberIsFree(run[i], run[i].open[t].year);
    }
  }

  /** What the emission does to counter and invoices in one go is what its statements do when nothing interferes. */
  lemma AloneIsAnUninterruptedRun(db: Db, t: TxId, year: int) returns (d1: Db, d2: Db, d3: Db, d4: Db, d5: Db, d6: Db)
    requires db.open == map[] && GapFree(db.sequences, db.invoices)
    ensures Next(db, t, Begin(year), d1) && Next(d1, t, EnsureRow, d2) && Next(d2, t, LockRow, d3)
    ensures Next(d3, t, SaveIncrement, d4) && Next(d4, t, InsertInvoice, d5) && Next(d5, t, Commit, d6)
    ensures var n := Last(db.sequences, year) + 1;
            d6 == Db(db.sequences[year := n], db.invoices + [Row(year, n)], map[])
  {
    hide InvoiceNumber, GapFree;
    NextNumberIsFree(db, year);
    var n := Last(db.sequences, year) + 1;
    var tx := Tx(year, Started, false);
    d1 := At(db, t, tx);
    var ready := tx.(phase := RowReady, created := year !in db.sequences);
    d2 := At(d1, t, ready);
    d3 := At(d2, t, ready.(phase := Locked(n - 1)));
    d4 := At(d3, t, ready.(phase := Saved(n)));
    d5 := At(d4, t, ready.(phase := Inserted(n)));
    d6 := Db(db.sequences[year := n], db.invoices + [Row(year, n)], map[]);
    assert d5.open - {t} == map[];
  }
}
