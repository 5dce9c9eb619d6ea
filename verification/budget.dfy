/** `BudgetAnalyzer.analyze`: transactions grouped by (month, category) and
    summed, then compared against the budget of every budgeted category.

    The source builds the grouped sums as a pandas table whose rows are the
    months and whose columns are the categories that occur in some
    transaction. A (month, category) cell with no transactions holds NaN,
    modelled here as None; a budgeted category that is not a column at all
    makes the lookup raise KeyError. */
module Budget {
  import opened Wrappers
  import SeqFacts

  type Month = string
  type Category = string

  datatype Transaction = Transaction(month: Month, category: Category, amount: real)

  /** A (month, category) group. */
  datatype Cell = Cell(month: Month, category: Category)

  function CellOf(t: Transaction): Cell
  {
    Cell(t.month, t.category)
  }

  /** The line of the report for one budgeted category in one month. */
  datatype Line = Line(spent: Option<real>, budgeted: real, deviation: Option<real>)

  datatype BudgetError = CategoryNeverSpent

  type Report = map<Month, map<Category, Line>>

  function Months(txs: seq<Transaction>): set<Month>
  {
    set t | t in txs :: t.month
  }

  function Categories(txs: seq<Transaction>): set<Category>
  {
    set t | t in txs :: t.category
  }

  /** Some transaction falls into `c`. */
  predicate Occurs(txs: seq<Transaction>, c: Cell)
  {
    exists t :: t in txs && CellOf(t) == c
  }

  /** What one transaction adds to the total of `c`. */
  function Contribution(t: Transaction, c: Cell): real
  {
    if CellOf(t) == c then t.amount else 0.0
  }

  /** Reference definition: the sum of the amounts of the transactions in `c`. */
  function SpentIn(txs: seq<Transaction>, c: Cell): real
  {
    if |txs| == 0 then 0.0
    else SpentIn(txs[..|txs| - 1], c) + Contribution(txs[|txs| - 1], c)
  }

  /** The group-by-and-sum, as a fold over the transactions in order: a cell
      is present exactly when some transaction falls into it, and holds the
      sum of their amounts. */
  function GroupSums(txs: seq<Transaction>): (g: map<Cell, real>)
    ensures forall c :: c in g <==> Occurs(txs, c)
    ensures forall c :: c in g ==> g[c] == SpentIn(txs, c)
  {
    if |txs| == 0 then map[]
    else
      var before := txs[..|txs| - 1];
      var t := txs[|txs| - 1];
      assert txs == before + [t];
      var g := GroupSums(before);
      var c := CellOf(t);
      assert forall d :: d != c ==> SpentIn(txs, d) == SpentIn(before, d);
      assert c !in g ==> SpentIn(before, c) == 0.0 by {
        if c !in g {
          NoOccurrenceSpendsNothing(before, c);
        }
      }
      g[c := (if c in g then g[c] else 0.0) + t.amount]
  }

  lemma {:induction false} NoOccurrenceSpendsNothing(txs: seq<Transaction>, c: Cell)
    requires !Occurs(txs, c)
    ensures SpentIn(txs, c) == 0.0
  {
    if |txs| > 0 {
      assert txs[|txs| - 1] in txs;
      assert !Occurs(txs[..|txs| - 1], c) by {
        forall t | t in txs[..|txs| - 1]
          ensures CellOf(t) != c
        {
          assert t in txs;
        }
      }
      NoOccurrenceSpendsNothing(txs[..|txs| - 1], c);
    }
  }

  /** The report line of budgeted category `cat` in month `m`. NaN spending
      propagates into the deviation. */
  function LineOf(g: map<Cell, real>, budget: map<Category, real>, m: Month, cat: Category): Line
    requires cat in budget
  {
    var c := Cell(m, cat);
    if c in g then Line(Some(g[c]), budget[cat], Some(g[c] - budget[cat]))
    else Line(None, budget[cat], None)
  }

  /** `l` reports budgeted category `cat` in month `m` as the source does:
      the budget of `cat`, and, when some transaction falls into the cell,
      the sum spent and spent minus budget; otherwise neither is defined. */
  predicate Describes(txs: seq<Transaction>, budget: map<Category, real>, m: Month, cat: Category, l: Line)
    requires cat in budget
  {
    && l.budgeted == budget[cat]
    && (Occurs(txs, Cell(m, cat)) ==>
          l.spent == Some(SpentIn(txs, Cell(m, cat)))
          && l.deviation == Some(SpentIn(txs, Cell(m, cat)) - budget[cat]))
    && (!Occurs(txs, Cell(m, cat)) ==> l.spent == None && l.deviation == None)
  }

  lemma LineOfDescribes(txs: seq<Transaction>, budget: map<Category, real>, m: Month, cat: Category)
    requires cat in budget
    ensures Describes(txs, budget, m, cat, LineOf(GroupSums(txs), budget, m, cat))
  {
  }

  /** The report row of month `m`: one line per budgeted category. */
  function Row(g: map<Cell, real>, budget: map<Category, real>, m: Month): (row: map<Category, Line>)
    ensures row.Keys == budget.Keys
  {
    map cat | cat in budget.Keys :: LineOf(g, budget, m, cat)
  }

  lemma RowDescribes(txs: seq<Transaction>, budget: map<Category, real>, m: Month)
    ensures forall cat :: cat in budget ==> Describes(txs, budget, m, cat, Row(GroupSums(txs), budget, m)[cat])
  {
    forall cat | cat in budget
      ensures Describes(txs, budget, m, cat, Row(GroupSums(txs), budget, m)[cat])
    {
      LineOfDescribes(txs, budget, m, cat);
    }
  }

  /** The analysis. It fails when some month is reported and a budgeted
      category never occurs in any transaction; otherwise every month that
      occurs maps every budgeted category (and only those) to its spending,
      its budget and their difference. */
  function Analyze(txs: seq<Transaction>, budget: map<Category, real>): (r: Result<Report, BudgetError>)
    ensures r.Failure? <==> |txs| > 0 && !(budget.Keys <= Categories(txs))
    ensures r.Success? ==> r.value.Keys == Months(txs)
    ensures r.Success? ==> forall m :: m in r.value ==> r.value[m].Keys == budget.Keys
    ensures r.Success? ==> forall m, cat :: m in r.value && cat in r.value[m] ==>
              cat in budget && Describes(txs, budget, m, cat, r.value[m][cat])
  {
    if |txs| > 0 && !(budget.Keys <= Categories(txs)) then Failure(CategoryNeverSpent)
    else
      var g := GroupSums(txs);
      assert forall m :: forall cat :: cat in budget ==> Describes(txs, budget, m, cat, Row(g, budget, m)[cat]) by {
        forall m
          ensures forall cat :: cat in budget ==> Describes(txs, budget, m, cat, Row(g, budget, m)[cat])
        {
          RowDescribes(txs, budget, m);
        }
      }
      Success(map m | m in Months(txs) :: Row(g, budget, m))
  }

  /** Sums distribute over concatenation. */
  lemma {:induction false} SpentInAppend(a: seq<Transaction>, b: seq<Transaction>, c: Cell)
    ensures SpentIn(a + b, c) == SpentIn(a, c) + SpentIn(b, c)
    decreases |b|
  {
    if |b| == 0 {
      assert a + b == a;
    } else {
      var b' := b[..|b| - 1];
      assert (a + b)[..|a + b| - 1] == a + b';
      SpentInAppend(a, b', c);
    }
  }

  lemma SpentInSingle(t: Transaction, c: Cell)
    ensures SpentIn([t], c) == Contribution(t, c)
  {
    assert [t][..0] == [];
  }

  /** Taking out the transaction at `j` takes out exactly its contribution. */
  lemma SpentInRemove(s: seq<Transaction>, j: nat, c: Cell)
    requires j < |s|
    ensures SpentIn(s, c) == SpentIn(s[..j] + s[j + 1..], c) + Contribution(s[j], c)
  {
    assert s == s[..j] + [s[j]] + s[j + 1..];
    SpentInAppend(s[..j] + [s[j]], s[j + 1..], c);
    SpentInAppend(s[..j], [s[j]], c);
    SpentInAppend(s[..j], s[j + 1..], c);
    SpentInSingle(s[j], c);
  }

  /** Group sums do not depend on the order of the transactions. */
  lemma {:induction false} SpentInPermutation(a: seq<Transaction>, b: seq<Transaction>, c: Cell)
    requires multiset(a) == multiset(b)
    ensures SpentIn(a, c) == SpentIn(b, c)
    decreases |a|
  {
    if |a| > 0 {
      var last := a[|a| - 1];
      var a' := a[..|a| - 1];
      assert last in multiset(b);
      var j :| 0 <= j < |b| && b[j] == last;
      var b' := b[..j] + b[j + 1..];
      SeqFacts.RemoveOne(a, |a| - 1);
      assert a[..|a| - 1] + a[|a|..] == a';
      SeqFacts.RemoveOne(b, j);
      assert multiset(a') == multiset(b');
      SpentInPermutation(a', b', c);
      SpentInRemove(b, j, c);
      assert SpentIn(a, c) == SpentIn(a', c) + Contribution(last, c);
    } else {
      assert |b| == 0;
    }
  }

  lemma SameElements(a: seq<Transaction>, b: seq<Transaction>)
    requires multiset(a) == multiset(b)
    ensures forall t :: t in a <==> t in b
    ensures |a| == |b|
  {
    forall t
      ensures t in a <==> t in b
    {
      assert t in a <==> t in multiset(a);
      assert t in b <==> t in multiset(b);
    }
    assert |multiset(a)| == |multiset(b)|;
  }

  /** The grouped sums do not depend on the order of the transactions. */
  lemma GroupSumsPermutation(a: seq<Transaction>, b: seq<Transaction>)
    requires multiset(a) == multiset(b)
    ensures GroupSums(a) == GroupSums(b)
  {
    SameElements(a, b);
    var ga, gb := GroupSums(a), GroupSums(b);
    forall c | c in ga
      ensures c in gb && ga[c] == gb[c]
    {
      SpentInPermutation(a, b, c);
    }
    assert ga.Keys == gb.Keys;
  }

  /** The whole report is invariant under reordering the transactions. */
  lemma AnalyzePermutation(a: seq<Transaction>, b: seq<Transaction>, budget: map<Category, real>)
    requires multiset(a) == multiset(b)
    ensures Analyze(a, budget) == Analyze(b, budget)
  {
    SameElements(a, b);
    assert Months(a) == Months(b);
    assert Categories(a) == Categories(b);
    GroupSumsPermutation(a, b);
  }

  /** One Dining transaction of 100 in 2024-01 against a Dining budget of 80
      is an overspend of 20. */
  lemma OverspentDining()
    ensures Analyze([Transaction("2024-01", "Dining", 100.0)], map["Dining" := 80.0])
            == Success(map["2024-01" := map["Dining" := Line(Some(100.0), 80.0, Some(20.0))]])
  {
    var txs := [Transaction("2024-01", "Dining", 100.0)];
    var budget := map["Dining" := 80.0];
    var cell := Cell("2024-01", "Dining");
    assert txs[0] in txs;
    assert Categories(txs) == {"Dining"};
    assert Months(txs) == {"2024-01"};
    assert budget.Keys == {"Dining"};
    var r := Analyze(txs, budget).value;
    assert Occurs(txs, cell);
    assert SpentIn(txs, cell) == 100.0 by {
      SpentInSingle(txs[0], cell);
    }
    var expected := map["2024-01" := map["Dining" := Line(Some(100.0), 80.0, Some(20.0))]];
    assert r["2024-01"]["Dining"] == Line(Some(100.0), 80.0, Some(20.0));
    assert r["2024-01"] == expected["2024-01"];
    assert r == expected;
  }

  /** A budgeted category spent in one month but not in another has no
      defined spending in the other month, rather than zero. */
  lemma MissingCellIsUndefined()
    ensures var txs := [Transaction("2024-01", "Dining", 100.0), Transaction("2024-02", "Rent", 900.0)];
            var r := Analyze(txs, map["Dining" := 80.0]);
            r.Success? && "2024-02" in r.value && r.value["2024-02"]["Dining"].spent == None
  {
    var txs := [Transaction("2024-01", "Dining", 100.0), Transaction("2024-02", "Rent", 900.0)];
    assert txs[0] in txs && txs[1] in txs;
    assert "Dining" in Categories(txs);
    assert "2024-02" in Months(txs);
    assert !Occurs(txs, Cell("2024-02", "Dining"));
  }

  /** A budgeted category that no transaction ever uses makes the analysis
      fail, while an empty transaction list yields an empty report. */
  lemma NeverSpentCategoryFails()
    ensures Analyze([Transaction("2024-01", "Dining", 100.0)], map["Travel" := 500.0]) == Failure(CategoryNeverSpent)
    ensures Analyze([], map["Travel" := 500.0]) == Success(map[])
  {
    var txs := [Transaction("2024-01", "Dining", 100.0)];
    assert Categories(txs) == {"Dining"} by {
      assert txs[0] in txs;
    }
    assert map["Travel" := 500.0].Keys == {"Travel"};
    assert Months([]) == {};
  }
}
