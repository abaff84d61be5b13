/** backend/app/services/reporting_service.py: which subscriptions are billed
    in a month, the per-category grouping of the monthly and yearly reports,
    and the month-by-month trend. */
module Reports {
  import opened Common
  import opened Dates
  import opened Schemas
  import opened Records
  import opened Store
  import opened Billing

  /** The user's active subscriptions, in table order. */
  function ActiveOf(subs: seq<Subscription>, userId: int): (r: seq<Subscription>)
    ensures forall x :: x in r <==> x in subs && x.userId == userId && x.isActive
  {
    if subs == [] then []
    else if subs[0].userId == userId && subs[0].isActive then [subs[0]] + ActiveOf(subs[1..], userId)
    else ActiveOf(subs[1..], userId)
  }

  /** The day a subscription is billed in month `m` of year `y`, if it is. */
  function BillingDate(s: Subscription, y: int, m: int): (r: Option<Date>)
    requires 1 <= m <= 12 && 1 <= s.billingDay
    ensures r.Some? ==> ValidDate(r.value) && r.value.year == y && r.value.month == m
    ensures s.billingCycle == Monthly ==>
              r == Some(Date(y, m, Min(s.billingDay, DaysInMonth(y, m))))
    ensures s.billingCycle in {Quarterly, Semiannual, Annual} ==>
              (r.Some? <==> NotAfter(Date(y, m, 1), s.nextBillingDate)
                            && NotAfter(s.nextBillingDate, Date(y, m, DaysInMonth(y, m))))
    ensures s.billingCycle in {Quarterly, Semiannual, Annual} && r.Some? ==> r.value == s.nextBillingDate
    ensures s.billingCycle == Custom ==> r.None?
  {
    var lastDay := DaysInMonth(y, m);
    match s.billingCycle
    case Monthly => Some(Date(y, m, Min(s.billingDay, lastDay)))
    case Custom => None
    case _ =>
      if NotAfter(Date(y, m, 1), s.nextBillingDate) && NotAfter(s.nextBillingDate, Date(y, m, lastDay))
      then Some(s.nextBillingDate) else None
  }

  /** Python's `==` between a member of the plain `enum.Enum` `BillingCycle`
      of db/models.py and a `str`. Neither type knows the other, so the
      comparison falls back to identity, which never holds. */
  function PlainEnumEqualsText(c: BillingCycle, text: string): bool {
    false
  }

  /** The billing test of `get_monthly_report` as written: each branch
      compares the stored cycle, an ORM enum member, with a string such as
      `"monthly"`, so no branch is ever taken and no subscription is billed. */
  function BillingDateAsWritten(s: Subscription, y: int, m: int): (r: Option<Date>)
    requires 1 <= m <= 12 && 1 <= s.billingDay
    ensures r.None?
  {
    var lastDay := DaysInMonth(y, m);
    var inMonth := NotAfter(Date(y, m, 1), s.nextBillingDate) && NotAfter(s.nextBillingDate, Date(y, m, lastDay));
    if PlainEnumEqualsText(s.billingCycle, "monthly") then Some(Date(y, m, Min(s.billingDay, lastDay)))
    else if PlainEnumEqualsText(s.billingCycle, "quarterly") then (if inMonth then Some(s.nextBillingDate) else None)
    else if PlainEnumEqualsText(s.billingCycle, "semiannual") then (if inMonth then Some(s.nextBillingDate) else None)
    else if PlainEnumEqualsText(s.billingCycle, "annual") then (if inMonth then Some(s.nextBillingDate) else None)
    else None
  }

  /** A monthly subscription billed on the 15th is billed in January 2024 by
      the intended rule, and not by the code as written. */
  lemma MonthlyBillingLost(s: Subscription)
    requires s.billingCycle == Monthly && s.billingDay == 15
    ensures BillingDate(s, 2024, 1) == Some(Date(2024, 1, 15))
    ensures BillingDateAsWritten(s, 2024, 1).None?
  {
    assert DaysInMonth(2024, 1) == 31;
  }

  predicate Billable(s: Subscription) {
    1 <= s.billingDay
  }

  predicate AllBillable(subs: seq<Subscription>) {
    forall i :: 0 <= i < |subs| ==> Billable(subs[i])
  }

  lemma ValidAreBillable(subs: seq<Subscription>, userId: int)
    requires forall i :: 0 <= i < |subs| ==> SchemaValid(subs[i])
    ensures AllBillable(ActiveOf(subs, userId))
  {
    var a := ActiveOf(subs, userId);
    forall i | 0 <= i < |a|
      ensures Billable(a[i])
    {
      assert a[i] in subs;
      var j :| 0 <= j < |subs| && subs[j] == a[i];
      assert SchemaValid(subs[j]);
    }
  }

  /** The amount billed in the month: the full amount when billed, else nothing. */
  function BilledAmount(s: Subscription, y: int, m: int): real
    requires 1 <= m <= 12 && Billable(s)
  {
    if BillingDate(s, y, m).Some? then s.amount else 0.0
  }

  /** The grouping key: the category's id when the subscription has one, else 0. */
  function CategoryKey(s: Subscription, cats: seq<Category>): (k: int)
    ensures k != 0 ==> s.categoryId == Some(k)
    ensures s.categoryId.None? ==> k == 0
  {
    if s.categoryId.Some? && FindCategoryById(cats, s.categoryId.value).Some? then s.categoryId.value else 0
  }

  /** The keys of `by_category`, in order of first appearance. */
  function KeysOf(subs: seq<Subscription>, cats: seq<Category>): seq<int> {
    if subs == [] then []
    else
      var ks := KeysOf(subs[..|subs| - 1], cats);
      var k := CategoryKey(subs[|subs| - 1], cats);
      if k in ks then ks else ks + [k]
  }

  /** Each key appears once, and exactly the keys of the subscriptions appear. */
  lemma {:induction false} KeysOfSpec(subs: seq<Subscription>, cats: seq<Category>)
    ensures forall i, j :: 0 <= i < j < |KeysOf(subs, cats)| ==> KeysOf(subs, cats)[i] != KeysOf(subs, cats)[j]
    ensures forall k :: k in KeysOf(subs, cats) <==> exists i :: 0 <= i < |subs| && CategoryKey(subs[i], cats) == k
    decreases |subs|
  {
    if subs != [] {
      var p := subs[..|subs| - 1];
      KeysOfSpec(p, cats);
      assert forall i :: 0 <= i < |p| ==> subs[i] == p[i];
      assert CategoryKey(subs[|subs| - 1], cats) in KeysOf(subs, cats);
    }
  }

  /** `count` of a category. */
  function CountOf(subs: seq<Subscription>, cats: seq<Category>, k: int): nat {
    if subs == [] then 0
    else CountOf(subs[..|subs| - 1], cats, k) + (if CategoryKey(subs[|subs| - 1], cats) == k then 1 else 0)
  }

  /** `amount` of a category: what its members bill in the month. */
  function AmountOf(subs: seq<Subscription>, cats: seq<Category>, y: int, m: int, k: int): real
    requires 1 <= m <= 12 && AllBillable(subs)
  {
    if subs == [] then 0.0
    else
      AmountOf(subs[..|subs| - 1], cats, y, m, k)
      + (if CategoryKey(subs[|subs| - 1], cats) == k then BilledAmount(subs[|subs| - 1], y, m) else 0.0)
  }

  /** `monthly_equivalent` of a category. */
  function EquivalentOf(subs: seq<Subscription>, cats: seq<Category>, k: int): real {
    if subs == [] then 0.0
    else
      var s := subs[|subs| - 1];
      EquivalentOf(subs[..|subs| - 1], cats, k) + (if CategoryKey(s, cats) == k then MonthlyAmount(s.billingCycle, s.amount) else 0.0)
  }

  /** `total_billed_amount`. */
  function TotalBilled(subs: seq<Subscription>, y: int, m: int): real
    requires 1 <= m <= 12 && AllBillable(subs)
  {
    if subs == [] then 0.0
    else TotalBilled(subs[..|subs| - 1], y, m) + BilledAmount(subs[|subs| - 1], y, m)
  }

  /** `total_monthly_equivalent`. */
  function TotalEquivalent(subs: seq<Subscription>): real {
    if subs == [] then 0.0
    else
      var s := subs[|subs| - 1];
      TotalEquivalent(subs[..|subs| - 1]) + MonthlyAmount(s.billingCycle, s.amount)
  }

  function SumCounts(keys: seq<int>, subs: seq<Subscription>, cats: seq<Category>): nat {
    if keys == [] then 0
    else SumCounts(keys[..|keys| - 1], subs, cats) + CountOf(subs, cats, keys[|keys| - 1])
  }

  function SumAmounts(keys: seq<int>, subs: seq<Subscription>, cats: seq<Category>, y: int, m: int): real
    requires 1 <= m <= 12 && AllBillable(subs)
  {
    if keys == [] then 0.0
    else SumAmounts(keys[..|keys| - 1], subs, cats, y, m) + AmountOf(subs, cats, y, m, keys[|keys| - 1])
  }

  /** A key that never occurs has count and amount zero. */
  lemma {:induction false} AbsentKeyEmpty(subs: seq<Subscription>, cats: seq<Category>, y: int, m: int, k: int)
    requires 1 <= m <= 12 && AllBillable(subs)
    requires forall i :: 0 <= i < |subs| ==> CategoryKey(subs[i], cats) != k
    ensures CountOf(subs, cats, k) == 0 && AmountOf(subs, cats, y, m, k) == 0.0
    ensures EquivalentOf(subs, cats, k) == 0.0
    decreases |subs|
  {
    if subs != [] {
      var p := subs[..|subs| - 1];
      assert forall i :: 0 <= i < |p| ==> p[i] == subs[i];
      AbsentKeyEmpty(p, cats, y, m, k);
    }
  }

  /** Appending one subscription adds its contribution to the one key it has. */
  lemma {:induction false} SumsStep(keys: seq<int>, subs: seq<Subscription>, x: Subscription,
                                    cats: seq<Category>, y: int, m: int)
    requires 1 <= m <= 12 && AllBillable(subs) && Billable(x)
    requires forall i, j :: 0 <= i < j < |keys| ==> keys[i] != keys[j]
    ensures AllBillable(subs + [x])
    ensures SumCounts(keys, subs + [x], cats)
            == SumCounts(keys, subs, cats) + (if CategoryKey(x, cats) in keys then 1 else 0)
    ensures SumAmounts(keys, subs + [x], cats, y, m)
            == SumAmounts(keys, subs, cats, y, m) + (if CategoryKey(x, cats) in keys then BilledAmount(x, y, m) else 0.0)
  {
    SumCountsStep(keys, subs, x, cats);
    SumAmountsStep(keys, subs, x, cats, y, m);
  }

  /** Appending a subscription adds one to the count of its own key only. */
  lemma CountStep(subs: seq<Subscription>, x: Subscription, cats: seq<Category>, k: int)
    ensures CountOf(subs + [x], cats, k) == CountOf(subs, cats, k) + (if CategoryKey(x, cats) == k then 1 else 0)
  {
    var t := subs + [x];
    assert t[..|t| - 1] == subs && t[|t| - 1] == x;
  }

  /** Appending a subscription adds its billed amount to its own key only. */
  lemma AmountStep(subs: seq<Subscription>, x: Subscription, cats: seq<Category>, y: int, m: int, k: int)
    requires 1 <= m <= 12 && AllBillable(subs) && Billable(x)
    ensures AllBillable(subs + [x])
    ensures AmountOf(subs + [x], cats, y, m, k)
            == AmountOf(subs, cats, y, m, k) + (if CategoryKey(x, cats) == k then BilledAmount(x, y, m) else 0.0)
  {
    var t := subs + [x];
    assert t[..|t| - 1] == subs && t[|t| - 1] == x;
  }

  /** A key list without repeats splits into its prefix and its last key, which the prefix lacks. */
  lemma LastKeySplit(keys: seq<int>, c: int)
    requires keys != []
    requires forall i, j :: 0 <= i < j < |keys| ==> keys[i] != keys[j]
    ensures var ks := keys[..|keys| - 1];
      && (forall i, j :: 0 <= i < j < |ks| ==> ks[i] != ks[j])
      && (c in keys <==> c in ks || c == keys[|keys| - 1])
      && !(c in ks && c == keys[|keys| - 1])
  {
    var ks := keys[..|keys| - 1];
    assert keys == ks + [keys[|keys| - 1]];
    assert forall i :: 0 <= i < |ks| ==> ks[i] == keys[i] != keys[|keys| - 1];
  }

  lemma {:induction false} SumCountsStep(keys: seq<int>, subs: seq<Subscription>, x: Subscription, cats: seq<Category>)
    requires forall i, j :: 0 <= i < j < |keys| ==> keys[i] != keys[j]
    ensures SumCounts(keys, subs + [x], cats)
            == SumCounts(keys, subs, cats) + (if CategoryKey(x, cats) in keys then 1 else 0)
    decreases |keys|
  {
    if keys != [] {
      var ks := keys[..|keys| - 1];
      LastKeySplit(keys, CategoryKey(x, cats));
      SumCountsStep(ks, subs, x, cats);
      CountStep(subs, x, cats, keys[|keys| - 1]);
    }
  }

  lemma {:induction false} SumAmountsStep(keys: seq<int>, subs: seq<Subscription>, x: Subscription,
                                          cats: seq<Category>, y: int, m: int)
    requires 1 <= m <= 12 && AllBillable(subs) && Billable(x)
    requires forall i, j :: 0 <= i < j < |keys| ==> keys[i] != keys[j]
    ensures AllBillable(subs + [x])
    ensures SumAmounts(keys, subs + [x], cats, y, m)
            == SumAmounts(keys, subs, cats, y, m) + (if CategoryKey(x, cats) in keys then BilledAmount(x, y, m) else 0.0)
    decreases |keys|
  {
    var t := subs + [x];
    assert t[..|t| - 1] == subs && t[|t| - 1] == x;
    if keys != [] {
      var ks := keys[..|keys| - 1];
      LastKeySplit(keys, CategoryKey(x, cats));
      SumAmountsStep(ks, subs, x, cats, y, m);
      AmountStep(subs, x, cats, y, m, keys[|keys| - 1]);
    }
  }

  /** Per-category counts add up to `subscription_count`, and per-category
      billed amounts add up to `total_billed_amount`. */
  lemma {:induction false} CategoriesPartition(subs: seq<Subscription>, cats: seq<Category>, y: int, m: int)
    requires 1 <= m <= 12 && AllBillable(subs)
    ensures SumCounts(KeysOf(subs, cats), subs, cats) == |subs|
    ensures SumAmounts(KeysOf(subs, cats), subs, cats, y, m) == TotalBilled(subs, y, m)
    decreases |subs|
  {
    if subs != [] {
      var p := subs[..|subs| - 1];
      var x := subs[|subs| - 1];
      assert subs == p + [x];
      assert AllBillable(p);
      CategoriesPartition(p, cats, y, m);
      KeysOfSpec(p, cats);
      var ks := KeysOf(p, cats);
      var k := CategoryKey(x, cats);
      SumsStep(ks, p, x, cats, y, m);
      if k !in ks {
        assert forall i :: 0 <= i < |p| ==> CategoryKey(p[i], cats) != k;
        AbsentKeyEmpty(p, cats, y, m, k);
        var ks' := ks + [k];
        assert ks'[..|ks'| - 1] == ks;
      }
    }
  }

  /** One entry of `by_category` in the monthly report. */
  datatype CategoryTotal = CategoryTotal(id: int, count: nat, amount: real, monthlyEquivalent: real)

  /** One entry of `subscription_details`. */
  datatype Detail = Detail(id: int, billed: bool, billingDate: Option<Date>, monthlyEquivalent: real, categoryId: int)

  datatype MonthlyReport = MonthlyReport(
    year: int,
    month: int,
    totalBilled: real,
    totalMonthlyEquivalent: real,
    count: nat,
    byCategory: seq<CategoryTotal>,
    details: seq<Detail>,
    paymentHistory: seq<HistoryEntry>)

  function CategoryTotalOf(subs: seq<Subscription>, cats: seq<Category>, y: int, m: int, k: int): CategoryTotal
    requires 1 <= m <= 12 && AllBillable(subs)
  {
    CategoryTotal(k, CountOf(subs, cats, k), AmountOf(subs, cats, y, m, k), EquivalentOf(subs, cats, k))
  }

  function DetailOf(s: Subscription, cats: seq<Category>, y: int, m: int): Detail
    requires 1 <= m <= 12 && Billable(s)
  {
    var d := BillingDate(s, y, m);
    Detail(s.id, d.Some?, d, MonthlyAmount(s.billingCycle, s.amount), CategoryKey(s, cats))
  }

  /** A category entry after counting one more subscription. */
  function Bumped(t: CategoryTotal, s: Subscription, y: int, m: int): CategoryTotal
    requires 1 <= m <= 12 && Billable(s)
  {
    t.(count := t.count + 1, amount := t.amount + BilledAmount(s, y, m),
       monthlyEquivalent := t.monthlyEquivalent + MonthlyAmount(s.billingCycle, s.amount))
  }

  /** How every accumulated figure changes when one more subscription is processed. */
  lemma Extend(p: seq<Subscription>, s: Subscription, cats: seq<Category>, y: int, m: int)
    requires 1 <= m <= 12 && AllBillable(p) && Billable(s)
    ensures AllBillable(p + [s])
    ensures TotalBilled(p + [s], y, m) == TotalBilled(p, y, m) + BilledAmount(s, y, m)
    ensures TotalEquivalent(p + [s]) == TotalEquivalent(p) + MonthlyAmount(s.billingCycle, s.amount)
    ensures KeysOf(p + [s], cats) == if CategoryKey(s, cats) in KeysOf(p, cats) then KeysOf(p, cats)
                                     else KeysOf(p, cats) + [CategoryKey(s, cats)]
    ensures forall k :: CategoryKey(s, cats) != k ==>
              CategoryTotalOf(p + [s], cats, y, m, k) == CategoryTotalOf(p, cats, y, m, k)
    ensures CategoryTotalOf(p + [s], cats, y, m, CategoryKey(s, cats))
            == Bumped(CategoryTotalOf(p, cats, y, m, CategoryKey(s, cats)), s, y, m)
  {
    var t := p + [s];
    assert t[..|t| - 1] == p && t[|t| - 1] == s;
  }

  /** `subscription_details` as the loop builds it. */
  function DetailsOf(subs: seq<Subscription>, cats: seq<Category>, y: int, m: int): seq<Detail>
    requires 1 <= m <= 12 && AllBillable(subs)
  {
    if subs == [] then []
    else DetailsOf(subs[..|subs| - 1], cats, y, m) + [DetailOf(subs[|subs| - 1], cats, y, m)]
  }

  /** One detail per subscription, in table order. */
  lemma {:induction false} DetailsOfSpec(subs: seq<Subscription>, cats: seq<Category>, y: int, m: int)
    requires 1 <= m <= 12 && AllBillable(subs)
    ensures |DetailsOf(subs, cats, y, m)| == |subs|
    ensures forall j :: 0 <= j < |subs| ==> DetailsOf(subs, cats, y, m)[j] == DetailOf(subs[j], cats, y, m)
    decreases |subs|
  {
    if subs != [] {
      var p := subs[..|subs| - 1];
      assert forall j :: 0 <= j < |p| ==> p[j] == subs[j];
      DetailsOfSpec(p, cats, y, m);
    }
  }

  /** The `by_category` dictionary as the loop builds it. */
  function TotalsOf(subs: seq<Subscription>, cats: seq<Category>, y: int, m: int): map<int, CategoryTotal>
    requires 1 <= m <= 12 && AllBillable(subs)
  {
    if subs == [] then map[]
    else
      var t := TotalsOf(subs[..|subs| - 1], cats, y, m);
      var s := subs[|subs| - 1];
      var k := CategoryKey(s, cats);
      var e := if k in t then t[k] else CategoryTotal(k, 0, 0.0, 0.0);
      t[k := Bumped(e, s, y, m)]
  }

  /** The dictionary holds exactly the keys in first-appearance order, each
      with the figures of its category. */
  lemma {:induction false} TotalsOfSpec(subs: seq<Subscription>, cats: seq<Category>, y: int, m: int)
    requires 1 <= m <= 12 && AllBillable(subs)
    ensures forall k :: k in TotalsOf(subs, cats, y, m) <==> k in KeysOf(subs, cats)
    ensures forall k :: k in TotalsOf(subs, cats, y, m) ==>
              TotalsOf(subs, cats, y, m)[k] == CategoryTotalOf(subs, cats, y, m, k)
    decreases |subs|
  {
    if subs != [] {
      var p := subs[..|subs| - 1];
      var s := subs[|subs| - 1];
      assert subs == p + [s];
      assert AllBillable(p);
      TotalsOfSpec(p, cats, y, m);
      KeysOfSpec(p, cats);
      Extend(p, s, cats, y, m);
      var k := CategoryKey(s, cats);
      if k !in TotalsOf(p, cats, y, m) {
        assert forall j :: 0 <= j < |p| ==> CategoryKey(p[j], cats) != k;
        AbsentKeyEmpty(p, cats, y, m, k);
      }
    }
  }

  /** One step of every figure the loop of `get_monthly_report` keeps. */
  lemma LoopStep(p: seq<Subscription>, s: Subscription, cats: seq<Category>, y: int, m: int)
    requires 1 <= m <= 12 && AllBillable(p) && Billable(s)
    ensures AllBillable(p + [s])
    ensures TotalBilled(p + [s], y, m) == TotalBilled(p, y, m) + BilledAmount(s, y, m)
    ensures TotalEquivalent(p + [s]) == TotalEquivalent(p) + MonthlyAmount(s.billingCycle, s.amount)
    ensures KeysOf(p + [s], cats) == if CategoryKey(s, cats) in KeysOf(p, cats) then KeysOf(p, cats)
                                     else KeysOf(p, cats) + [CategoryKey(s, cats)]
    ensures TotalsOf(p + [s], cats, y, m)
            == var t := TotalsOf(p, cats, y, m);
               var e := if CategoryKey(s, cats) in t then t[CategoryKey(s, cats)]
                        else CategoryTotal(CategoryKey(s, cats), 0, 0.0, 0.0);
               t[CategoryKey(s, cats) := Bumped(e, s, y, m)]
    ensures DetailsOf(p + [s], cats, y, m) == DetailsOf(p, cats, y, m) + [DetailOf(s, cats, y, m)]
  {
    var t := p + [s];
    assert t[..|t| - 1] == p && t[|t| - 1] == s;
  }

  /** The figures `get_monthly_report` accumulates in its loop over the subscriptions. */
  method Accumulate(subs: seq<Subscription>, cats: seq<Category>, year: int, month: int)
    returns (total: real, totalEquivalent: real, keys: seq<int>, totals: map<int, CategoryTotal>, details: seq<Detail>)
    requires 1 <= month <= 12 && AllBillable(subs)
    ensures total == TotalBilled(subs, year, month)
    ensures totalEquivalent == TotalEquivalent(subs)
    ensures keys == KeysOf(subs, cats)
    ensures forall j :: 0 <= j < |keys| ==>
              keys[j] in totals && totals[keys[j]] == CategoryTotalOf(subs, cats, year, month, keys[j])
    ensures details == DetailsOf(subs, cats, year, month)
  {
    total := 0.0;
    totalEquivalent := 0.0;
    keys := [];
    totals := map[];
    details := [];
    for i := 0 to |subs|
      invariant AllBillable(subs[..i])
      invariant total == TotalBilled(subs[..i], year, month)
      invariant totalEquivalent == TotalEquivalent(subs[..i])
      invariant keys == KeysOf(subs[..i], cats)
      invariant totals == TotalsOf(subs[..i], cats, year, month)
      invariant details == DetailsOf(subs[..i], cats, year, month)
    {
      var s := subs[i];
      LoopStep(subs[..i], s, cats, year, month);
      KeyListed(subs[..i], cats, year, month, CategoryKey(s, cats));
      assert subs[..i + 1] == subs[..i] + [s];
      var monthlyAmount := MonthlyAmount(s.billingCycle, s.amount);
      var billingDate := BillingDate(s, year, month);
      if billingDate.Some? {
        total := total + s.amount;
      }
      totalEquivalent := totalEquivalent + monthlyAmount;
      var key := CategoryKey(s, cats);
      ghost var before := totals;
      if key !in totals {
        totals := totals[key := CategoryTotal(key, 0, 0.0, 0.0)];
        keys := keys + [key];
      }
      totals := totals[key := Bumped(totals[key], s, year, month)];
      if key !in before {
        var e := CategoryTotal(key, 0, 0.0, 0.0);
        UpdateTwice(before, key, e, Bumped(e, s, year, month));
      }
      details := details + [Detail(s.id, billingDate.Some?, billingDate, monthlyAmount, key)];
    }
    assert subs[..|subs|] == subs;
    TotalsAtKeys(subs, cats, year, month);
  }

  /** Each listed key has its category's figures in the dictionary. */
  lemma TotalsAtKeys(subs: seq<Subscription>, cats: seq<Category>, y: int, m: int)
    requires 1 <= m <= 12 && AllBillable(subs)
    ensures forall j :: 0 <= j < |KeysOf(subs, cats)| ==>
              && KeysOf(subs, cats)[j] in TotalsOf(subs, cats, y, m)
              && TotalsOf(subs, cats, y, m)[KeysOf(subs, cats)[j]] == CategoryTotalOf(subs, cats, y, m, KeysOf(subs, cats)[j])
  {
    forall j | 0 <= j < |KeysOf(subs, cats)|
      ensures KeysOf(subs, cats)[j] in TotalsOf(subs, cats, y, m)
      ensures TotalsOf(subs, cats, y, m)[KeysOf(subs, cats)[j]] == CategoryTotalOf(subs, cats, y, m, KeysOf(subs, cats)[j])
    {
      KeyHasTotal(subs, cats, y, m, KeysOf(subs, cats)[j]);
    }
  }

  /** A key is in the dictionary exactly when it is listed. */
  lemma KeyListed(subs: seq<Subscription>, cats: seq<Category>, y: int, m: int, k: int)
    requires 1 <= m <= 12 && AllBillable(subs)
    ensures k in TotalsOf(subs, cats, y, m) <==> k in KeysOf(subs, cats)
  {
    TotalsOfSpec(subs, cats, y, m);
  }

  lemma KeyHasTotal(subs: seq<Subscription>, cats: seq<Category>, y: int, m: int, k: int)
    requires 1 <= m <= 12 && AllBillable(subs)
    requires k in KeysOf(subs, cats)
    ensures k in TotalsOf(subs, cats, y, m) && TotalsOf(subs, cats, y, m)[k] == CategoryTotalOf(subs, cats, y, m, k)
  {
    TotalsOfSpec(subs, cats, y, m);
  }

  /** One entry of `payment_history`: the payment and the name of its subscription. */
  datatype HistoryEntry = HistoryEntry(payment: Payment, subscriptionName: string)

  /** `next(sub for sub in subscriptions if sub.id == id)`. */
  function FirstWithId(subs: seq<Subscription>, id: int): (r: Option<nat>)
    ensures r.Some? ==> r.value < |subs| && subs[r.value].id == id
    ensures r.Some? ==> forall j :: 0 <= j < r.value ==> subs[j].id != id
    ensures r.None? <==> forall j :: 0 <= j < |subs| ==> subs[j].id != id
  {
    var p := (s: Subscription) => s.id == id;
    var r := FirstIndex(subs, p);
    assert r.None? <==> forall j :: 0 <= j < |subs| ==> !p(subs[j]);
    assert r.Some? ==> forall j :: 0 <= j < r.value ==> !p(subs[j]);
    r
  }

  predicate InMonth(d: Date, y: int, m: int)
    requires 1 <= m <= 12
  {
    NotAfter(Date(y, m, 1), d) && NotAfter(d, Date(y, m, DaysInMonth(y, m)))
  }

  /** Whether `get_monthly_report` lists a payment: paid in the month, for one of `subs`. */
  predicate Listed(p: Payment, subs: seq<Subscription>, y: int, m: int)
    requires 1 <= m <= 12
  {
    InMonth(p.paymentDate, y, m) && FirstWithId(subs, p.subscriptionId).Some?
  }

  /** The entry listed for a payment. */
  function EntryOf(p: Payment, subs: seq<Subscription>, y: int, m: int): HistoryEntry
    requires 1 <= m <= 12 && Listed(p, subs, y, m)
  {
    HistoryEntry(p, subs[FirstWithId(subs, p.subscriptionId).value].name)
  }

  /** The payments of the month that belong to one of `subs`, in table order. */
  function HistoryOf(pays: seq<Payment>, subs: seq<Subscription>, y: int, m: int): (r: seq<HistoryEntry>)
    requires 1 <= m <= 12
    ensures |r| <= |pays|
    ensures forall j :: 0 <= j < |r| ==>
              r[j].payment in pays && Listed(r[j].payment, subs, y, m) && r[j] == EntryOf(r[j].payment, subs, y, m)
  {
    if pays == [] then []
    else
      var q := pays[..|pays| - 1];
      var x := pays[|pays| - 1];
      var h := HistoryOf(q, subs, y, m);
      if Listed(x, subs, y, m) then h + [EntryOf(x, subs, y, m)] else h
  }

  /** Every listed payment of the table has its entry. */
  lemma {:induction false} HistoryComplete(pays: seq<Payment>, subs: seq<Subscription>, y: int, m: int, i: int)
    requires 1 <= m <= 12 && 0 <= i < |pays| && Listed(pays[i], subs, y, m)
    ensures EntryOf(pays[i], subs, y, m) in HistoryOf(pays, subs, y, m)
    decreases |pays|
  {
    if i < |pays| - 1 {
      var q := pays[..|pays| - 1];
      assert q[i] == pays[i];
      HistoryComplete(q, subs, y, m, i);
    }
  }

  /** The `payment_history` loop of `get_monthly_report`. */
  method PaymentHistory(pays: seq<Payment>, subs: seq<Subscription>, year: int, month: int)
    returns (history: seq<HistoryEntry>)
    requires 1 <= month <= 12
    ensures history == HistoryOf(pays, subs, year, month)
  {
    history := [];
    for i := 0 to |pays|
      invariant history == HistoryOf(pays[..i], subs, year, month)
    {
      var payment := pays[i];
      assert pays[..i + 1][..i] == pays[..i] && pays[..i + 1][i] == payment;
      if InMonth(payment.paymentDate, year, month) {
        var idx := FirstWithId(subs, payment.subscriptionId);
        if idx.Some? {
          history := history + [HistoryEntry(payment, subs[idx.value].name)];
        }
      }
    }
    assert pays[..|pays|] == pays;
  }

  /** `get_monthly_report(user, year, month)` over the user's active subscriptions. */
  method MonthlyReportOf(db: Db, userId: int, year: int, month: int) returns (r: MonthlyReport)
    requires db.Valid() && 1 <= month <= 12
    ensures var subs := ActiveOf(db.subscriptions, userId);
      var keys := KeysOf(subs, db.categories);
      && AllBillable(subs)
      && r.year == year && r.month == month
      && r.count == |subs|
      && r.totalBilled == TotalBilled(subs, year, month)
      && r.totalMonthlyEquivalent == TotalEquivalent(subs)
      && |r.byCategory| == |keys|
      && (forall i :: 0 <= i < |keys| ==> r.byCategory[i] == CategoryTotalOf(subs, db.categories, year, month, keys[i]))
      && |r.details| == |subs|
      && (forall i :: 0 <= i < |subs| ==> r.details[i] == DetailOf(subs[i], db.categories, year, month))
      && r.paymentHistory == HistoryOf(db.payments, subs, year, month)
  {
    var subs := ActiveOf(db.subscriptions, userId);
    ValidAreBillable(db.subscriptions, userId);
    var total, totalEquivalent, keys, totals, details := Accumulate(subs, db.categories, year, month);
    DetailsOfSpec(subs, db.categories, year, month);
    var byCategory := seq(|keys|, i requires 0 <= i < |keys| => totals[keys[i]]);
    var history := PaymentHistory(db.payments, subs, year, month);
    r := MonthlyReport(year, month, total, totalEquivalent, |subs|, byCategory, details, history);
  }

  /** Summing the per-category counts of a report gives its `subscription_count`,
      and summing their billed amounts gives its `total_billed_amount`. */
  function CountSum(ts: seq<CategoryTotal>): nat {
    if ts == [] then 0 else CountSum(ts[..|ts| - 1]) + ts[|ts| - 1].count
  }

  function AmountSum(ts: seq<CategoryTotal>): real {
    if ts == [] then 0.0 else AmountSum(ts[..|ts| - 1]) + ts[|ts| - 1].amount
  }

  lemma {:induction false} TotalsSum(keys: seq<int>, ts: seq<CategoryTotal>, subs: seq<Subscription>,
                                     cats: seq<Category>, y: int, m: int)
    requires 1 <= m <= 12 && AllBillable(subs) && |ts| == |keys|
    requires forall i :: 0 <= i < |keys| ==> ts[i] == CategoryTotalOf(subs, cats, y, m, keys[i])
    ensures CountSum(ts) == SumCounts(keys, subs, cats)
    ensures AmountSum(ts) == SumAmounts(keys, subs, cats, y, m)
    decreases |keys|
  {
    if keys != [] {
      TotalsSum(keys[..|keys| - 1], ts[..|ts| - 1], subs, cats, y, m);
    }
  }

  /** The `by_category` entries of a monthly report partition its subscriptions
      and its billed total. */
  lemma MonthlyReportPartition(r: MonthlyReport, subs: seq<Subscription>, cats: seq<Category>)
    requires 1 <= r.month <= 12 && AllBillable(subs)
    requires r.count == |subs| && r.totalBilled == TotalBilled(subs, r.year, r.month)
    requires |r.byCategory| == |KeysOf(subs, cats)|
    requires forall i :: 0 <= i < |KeysOf(subs, cats)| ==>
               r.byCategory[i] == CategoryTotalOf(subs, cats, r.year, r.month, KeysOf(subs, cats)[i])
    ensures CountSum(r.byCategory) == r.count
    ensures AmountSum(r.byCategory) == r.totalBilled
  {
    TotalsSum(KeysOf(subs, cats), r.byCategory, subs, cats, r.year, r.month);
    CategoriesPartition(subs, cats, r.year, r.month);
  }

  /** One entry of `monthly_data` in the yearly report. */
  datatype MonthSummary = MonthSummary(month: int, totalBilled: real, totalMonthlyEquivalent: real, count: nat)

  /** One entry of the yearly `by_category`. */
  datatype YearCategory = YearCategory(id: int, count: nat, annualAmount: real)

  datatype YearlyReport = YearlyReport(
    year: int,
    totalYearly: real,
    totalAnnualEquivalent: real,
    count: nat,
    monthlyData: seq<MonthSummary>,
    byCategory: seq<YearCategory>)

  /** The billed totals of months 1..n of year `y` added up. */
  function YearToDate(subs: seq<Subscription>, y: int, n: int): real
    requires 0 <= n <= 12 && AllBillable(subs)
  {
    if n == 0 then 0.0 else YearToDate(subs, y, n - 1) + TotalBilled(subs, y, n)
  }

  /** `annual_amount` of a category: twelve times each member's monthly cost. */
  function AnnualOf(subs: seq<Subscription>, cats: seq<Category>, k: int): real {
    if subs == [] then 0.0
    else
      var s := subs[|subs| - 1];
      AnnualOf(subs[..|subs| - 1], cats, k) + (if CategoryKey(s, cats) == k then MonthlyAmount(s.billingCycle, s.amount) * 12.0 else 0.0)
  }

  /** `total_annual_equivalent`. */
  function TotalAnnual(subs: seq<Subscription>): real {
    if subs == [] then 0.0
    else
      var s := subs[|subs| - 1];
      TotalAnnual(subs[..|subs| - 1]) + MonthlyAmount(s.billingCycle, s.amount) * 12.0
  }

  /** The annual figures are twelve times the monthly equivalents of the monthly report. */
  lemma {:induction false} AnnualIsTwelveMonths(subs: seq<Subscription>, cats: seq<Category>, k: int)
    ensures AnnualOf(subs, cats, k) == 12.0 * EquivalentOf(subs, cats, k)
    ensures TotalAnnual(subs) == 12.0 * TotalEquivalent(subs)
    decreases |subs|
  {
    if subs != [] {
      AnnualIsTwelveMonths(subs[..|subs| - 1], cats, k);
    }
  }

  /** A yearly category entry after counting one more subscription. */
  function Counted(e: YearCategory, s: Subscription): YearCategory {
    e.(count := e.count + 1, annualAmount := e.annualAmount + MonthlyAmount(s.billingCycle, s.amount) * 12.0)
  }

  /** The yearly `by_category` dictionary as its loop builds it. */
  function AnnualTotalsOf(subs: seq<Subscription>, cats: seq<Category>): map<int, YearCategory> {
    if subs == [] then map[]
    else
      var t := AnnualTotalsOf(subs[..|subs| - 1], cats);
      var s := subs[|subs| - 1];
      var k := CategoryKey(s, cats);
      var e := if k in t then t[k] else YearCategory(k, 0, 0.0);
      t[k := Counted(e, s)]
  }

  /** The yearly dictionary holds exactly the keys of the monthly one, each
      with the category's count and annual amount. */
  lemma {:induction false} AnnualTotalsOfSpec(subs: seq<Subscription>, cats: seq<Category>)
    ensures forall k :: k in AnnualTotalsOf(subs, cats) <==> k in KeysOf(subs, cats)
    ensures forall k :: k in AnnualTotalsOf(subs, cats) ==>
              AnnualTotalsOf(subs, cats)[k] == YearCategory(k, CountOf(subs, cats, k), AnnualOf(subs, cats, k))
  {
    forall k | true
      ensures k in AnnualTotalsOf(subs, cats) <==> k in KeysOf(subs, cats)
      ensures k in AnnualTotalsOf(subs, cats) ==>
                AnnualTotalsOf(subs, cats)[k] == YearCategory(k, CountOf(subs, cats, k), AnnualOf(subs, cats, k))
    {
      AnnualTotalsAt(subs, cats, k);
    }
  }

  /** The yearly dictionary at one key; an unlisted key has no count and no amount. */
  lemma {:induction false} AnnualTotalsAt(subs: seq<Subscription>, cats: seq<Category>, q: int)
    ensures q in AnnualTotalsOf(subs, cats) <==> q in KeysOf(subs, cats)
    ensures q in AnnualTotalsOf(subs, cats) ==>
              AnnualTotalsOf(subs, cats)[q] == YearCategory(q, CountOf(subs, cats, q), AnnualOf(subs, cats, q))
    ensures q !in KeysOf(subs, cats) ==> CountOf(subs, cats, q) == 0 && AnnualOf(subs, cats, q) == 0.0
    decreases |subs|
  {
    if subs != [] {
      AnnualTotalsAt(subs[..|subs| - 1], cats, q);
    }
  }

  /** One step of the figures the category loop of `get_yearly_report` keeps. */
  lemma AnnualStep(p: seq<Subscription>, s: Subscription, cats: seq<Category>)
    ensures TotalAnnual(p + [s]) == TotalAnnual(p) + MonthlyAmount(s.billingCycle, s.amount) * 12.0
    ensures KeysOf(p + [s], cats) == if CategoryKey(s, cats) in KeysOf(p, cats) then KeysOf(p, cats)
                                     else KeysOf(p, cats) + [CategoryKey(s, cats)]
    ensures AnnualTotalsOf(p + [s], cats)
            == var t := AnnualTotalsOf(p, cats);
               var k := CategoryKey(s, cats);
               var e := if k in t then t[k] else YearCategory(k, 0, 0.0);
               t[k := Counted(e, s)]
  {
    var t := p + [s];
    assert t[..|t| - 1] == p && t[|t| - 1] == s;
  }

  /** The `total_annual_equivalent` sum and the `by_category` loop of `get_yearly_report`. */
  method YearlyCategories(subs: seq<Subscription>, cats: seq<Category>)
    returns (totalAnnual: real, keys: seq<int>, totals: map<int, YearCategory>)
    ensures totalAnnual == TotalAnnual(subs)
    ensures keys == KeysOf(subs, cats)
    ensures forall j :: 0 <= j < |keys| ==>
              keys[j] in totals && totals[keys[j]] == YearCategory(keys[j], CountOf(subs, cats, keys[j]), AnnualOf(subs, cats, keys[j]))
  {
    totalAnnual := 0.0;
    keys := [];
    totals := map[];
    for i := 0 to |subs|
      invariant totalAnnual == TotalAnnual(subs[..i])
      invariant keys == KeysOf(subs[..i], cats)
      invariant totals == AnnualTotalsOf(subs[..i], cats)
    {
      var s := subs[i];
      AnnualStep(subs[..i], s, cats);
      AnnualKeyListed(subs[..i], cats, CategoryKey(s, cats));
      assert subs[..i + 1] == subs[..i] + [s];
      var annualAmount := MonthlyAmount(s.billingCycle, s.amount) * 12.0;
      totalAnnual := totalAnnual + annualAmount;
      var key := CategoryKey(s, cats);
      ghost var before := totals;
      if key !in totals {
        totals := totals[key := YearCategory(key, 0, 0.0)];
        keys := keys + [key];
      }
      totals := totals[key := Counted(totals[key], s)];
      if key !in before {
        UpdateTwice(before, key, YearCategory(key, 0, 0.0), Counted(YearCategory(key, 0, 0.0), s));
      }
    }
    assert subs[..|subs|] == subs;
    AnnualAtKeys(subs, cats);
  }

  /** A second update of the same key overrides the first. */
  lemma UpdateTwice<K, V>(m: map<K, V>, k: K, a: V, b: V)
    ensures m[k := a][k := b] == m[k := b]
  {
  }

  lemma AnnualKeyListed(subs: seq<Subscription>, cats: seq<Category>, k: int)
    ensures k in AnnualTotalsOf(subs, cats) <==> k in KeysOf(subs, cats)
  {
    AnnualTotalsOfSpec(subs, cats);
  }

  /** Each category key has its yearly entry. */
  lemma AnnualAtKeys(subs: seq<Subscription>, cats: seq<Category>)
    ensures forall j :: 0 <= j < |KeysOf(subs, cats)| ==>
              KeysOf(subs, cats)[j] in AnnualTotalsOf(subs, cats)
              && AnnualTotalsOf(subs, cats)[KeysOf(subs, cats)[j]]
                 == YearCategory(KeysOf(subs, cats)[j], CountOf(subs, cats, KeysOf(subs, cats)[j]),
                                 AnnualOf(subs, cats, KeysOf(subs, cats)[j]))
  {
    AnnualTotalsOfSpec(subs, cats);
    var keys := KeysOf(subs, cats);
    forall j | 0 <= j < |keys|
      ensures keys[j] in AnnualTotalsOf(subs, cats)
    {
      assert keys[j] in KeysOf(subs, cats);
    }
  }

  /** `get_yearly_report(user, year)`: the twelve monthly reports and the yearly grouping. */
  method YearlyReportOf(db: Db, userId: int, year: int) returns (r: YearlyReport)
    requires db.Valid()
    ensures var subs := ActiveOf(db.subscriptions, userId);
      var keys := KeysOf(subs, db.categories);
      && AllBillable(subs)
      && r.year == year
      && r.count == |subs|
      && |r.monthlyData| == 12
      && (forall i :: 0 <= i < 12 ==>
            r.monthlyData[i] == MonthSummary(i + 1, TotalBilled(subs, year, i + 1), TotalEquivalent(subs), |subs|))
      && r.totalYearly == YearToDate(subs, year, 12)
      && r.totalAnnualEquivalent == TotalAnnual(subs)
      && |r.byCategory| == |keys|
      && (forall i :: 0 <= i < |keys| ==>
            r.byCategory[i] == YearCategory(keys[i], CountOf(subs, db.categories, keys[i]), AnnualOf(subs, db.categories, keys[i])))
  {
    var subs := ActiveOf(db.subscriptions, userId);
    ValidAreBillable(db.subscriptions, userId);
    var monthlyData, totalYearly := MonthSummaries(db, userId, year);
    SummariesSpec(subs, year, 12);
    var totalAnnual, keys, totals := YearlyCategories(subs, db.categories);
    var byCategory := seq(|keys|, i requires 0 <= i < |keys| => totals[keys[i]]);
    r := YearlyReport(year, totalYearly, totalAnnual, |subs|, monthlyData, byCategory);
  }

  /** The yearly `monthly_data` for the first `n` months. */
  function Summaries(subs: seq<Subscription>, y: int, n: int): seq<MonthSummary>
    requires 0 <= n <= 12 && AllBillable(subs)
  {
    if n == 0 then []
    else Summaries(subs, y, n - 1) + [MonthSummary(n, TotalBilled(subs, y, n), TotalEquivalent(subs), |subs|)]
  }

  /** Entry `i` of the monthly data summarises month `i + 1`. */
  lemma {:induction false} SummariesSpec(subs: seq<Subscription>, y: int, n: int)
    requires 0 <= n <= 12 && AllBillable(subs)
    ensures |Summaries(subs, y, n)| == n
    ensures forall i :: 0 <= i < n ==>
              Summaries(subs, y, n)[i] == MonthSummary(i + 1, TotalBilled(subs, y, i + 1), TotalEquivalent(subs), |subs|)
    decreases n
  {
    if n > 0 {
      SummariesSpec(subs, y, n - 1);
    }
  }

  /** The month loop of `get_yearly_report`: one monthly report per month,
      their billed totals summed. */
  method MonthSummaries(db: Db, userId: int, year: int) returns (monthlyData: seq<MonthSummary>, totalYearly: real)
    requires db.Valid()
    ensures AllBillable(ActiveOf(db.subscriptions, userId))
    ensures monthlyData == Summaries(ActiveOf(db.subscriptions, userId), year, 12)
    ensures totalYearly == YearToDate(ActiveOf(db.subscriptions, userId), year, 12)
  {
    var subs := ActiveOf(db.subscriptions, userId);
    ValidAreBillable(db.subscriptions, userId);
    monthlyData := [];
    totalYearly := 0.0;
    for month := 1 to 13
      invariant monthlyData == Summaries(subs, year, month - 1)
      invariant totalYearly == YearToDate(subs, year, month - 1)
    {
      var summary := MonthSummaryOf(db, userId, year, month);
      monthlyData := monthlyData + [summary];
      totalYearly := totalYearly + summary.totalBilled;
    }
  }

  /** One entry of the yearly `monthly_data`, taken from that month's report. */
  method MonthSummaryOf(db: Db, userId: int, year: int, month: int) returns (summary: MonthSummary)
    requires db.Valid() && 1 <= month <= 12
    ensures var subs := ActiveOf(db.subscriptions, userId);
      && AllBillable(subs)
      && summary == MonthSummary(month, TotalBilled(subs, year, month), TotalEquivalent(subs), |subs|)
  {
    var report := MonthlyReportOf(db, userId, year, month);
    summary := MonthSummary(month, report.totalBilled, report.totalMonthlyEquivalent, report.count);
  }

  /** Over a year, a monthly subscription is billed in all twelve months. */
  lemma {:induction false} MonthlyBilledEveryMonth(s: Subscription, y: int, n: int)
    requires 0 <= n <= 12 && s.billingCycle == Monthly && Billable(s)
    ensures YearToDate([s], y, n) == n as real * s.amount
    decreases n
  {
    if n > 0 {
      MonthlyBilledEveryMonth(s, y, n - 1);
      SingleTotal(s, y, n);
    }
  }

  /** A quarterly, semiannual or annual subscription is billed in a year at
      most once: in the month of its next billing date. */
  lemma {:induction false} OtherCyclesBilledOnce(s: Subscription, y: int, n: int)
    requires 0 <= n <= 12 && s.billingCycle in {Quarterly, Semiannual, Annual} && SchemaValid(s)
    ensures YearToDate([s], y, n)
            == if s.nextBillingDate.year == y && s.nextBillingDate.month <= n then s.amount else 0.0
    decreases n
  {
    if n > 0 {
      OtherCyclesBilledOnce(s, y, n - 1);
      SingleTotal(s, y, n);
    }
  }

  lemma SingleTotal(s: Subscription, y: int, m: int)
    requires 1 <= m <= 12 && Billable(s)
    ensures TotalBilled([s], y, m) == BilledAmount(s, y, m)
  {
    assert [s][..0] == [];
  }

  /** One entry of `monthly_data` in the trend report. */
  datatype TrendEntry = TrendEntry(year: int, month: int, activeCount: nat, totalMonthly: real, newSubscriptions: nat)

  /** The trend report considers the user's subscriptions created on or after `start`. */
  function CreatedSince(subs: seq<Subscription>, userId: int, start: Date): (r: seq<Subscription>)
    ensures forall x :: x in r <==> x in subs && x.userId == userId && NotAfter(start, x.createdOn)
  {
    if subs == [] then []
    else
      var rest := CreatedSince(subs[1..], userId, start);
      if subs[0].userId == userId && NotAfter(start, subs[0].createdOn) then [subs[0]] + rest else rest
  }

  /** A subscription counts as active in the month ending on `monthEnd`: created by
      then, and not ended by then. */
  predicate ActiveBy(s: Subscription, monthEnd: Date) {
    NotAfter(s.createdOn, monthEnd) && !(s.endDate.Some? && NotAfter(s.endDate.value, monthEnd))
  }

  /** A subscription is new in the month it was created in. */
  predicate NewIn(s: Subscription, y: int, m: int) {
    s.createdOn.year == y && s.createdOn.month == m
  }

  function ActiveCount(subs: seq<Subscription>, monthEnd: Date): nat {
    if subs == [] then 0
    else ActiveCount(subs[..|subs| - 1], monthEnd) + (if ActiveBy(subs[|subs| - 1], monthEnd) then 1 else 0)
  }

  function ActiveMonthly(subs: seq<Subscription>, monthEnd: Date): real {
    if subs == [] then 0.0
    else
      var s := subs[|subs| - 1];
      ActiveMonthly(subs[..|subs| - 1], monthEnd) + (if ActiveBy(s, monthEnd) then MonthlyAmount(s.billingCycle, s.amount) else 0.0)
  }

  function NewCount(subs: seq<Subscription>, y: int, m: int): nat {
    if subs == [] then 0
    else NewCount(subs[..|subs| - 1], y, m) + (if NewIn(subs[|subs| - 1], y, m) then 1 else 0)
  }

  /** The trend entry of month `m` of year `y`. */
  function TrendEntryOf(subs: seq<Subscription>, y: int, m: int): TrendEntry
    requires 1 <= m <= 12
  {
    var monthEnd := Date(y, m, DaysInMonth(y, m));
    TrendEntry(y, m, ActiveCount(subs, monthEnd), ActiveMonthly(subs, monthEnd), NewCount(subs, y, m))
  }

  /** The counts grow by at most one per subscription. */
  lemma {:induction false} TrendCountsBounded(subs: seq<Subscription>, y: int, m: int)
    requires 1 <= m <= 12
    ensures TrendEntryOf(subs, y, m).activeCount <= |subs|
    ensures TrendEntryOf(subs, y, m).newSubscriptions <= |subs|
    decreases |subs|
  {
    if subs != [] {
      TrendCountsBounded(subs[..|subs| - 1], y, m);
    }
  }

  /** Active counts never fall from one month to a later one unless a subscription ends. */
  lemma {:induction false} ActiveCountMonotone(subs: seq<Subscription>, e1: Date, e2: Date)
    requires NotAfter(e1, e2)
    requires forall i :: 0 <= i < |subs| ==> subs[i].endDate.None?
    ensures ActiveCount(subs, e1) <= ActiveCount(subs, e2)
    decreases |subs|
  {
    if subs != [] {
      var p := subs[..|subs| - 1];
      assert forall i :: 0 <= i < |p| ==> p[i] == subs[i];
      ActiveCountMonotone(p, e1, e2);
    }
  }

  /** The inner loop of `get_subscription_trend_report`: one month's counts. */
  method CountMonth(subs: seq<Subscription>, year: int, month: int) returns (entry: TrendEntry)
    requires 1 <= month <= 12
    ensures entry == TrendEntryOf(subs, year, month)
  {
    var monthEnd := Date(year, month, DaysInMonth(year, month));
    var activeCount: nat := 0;
    var totalMonthly := 0.0;
    var newSubscriptions: nat := 0;
    for i := 0 to |subs|
      invariant activeCount == ActiveCount(subs[..i], monthEnd)
      invariant totalMonthly == ActiveMonthly(subs[..i], monthEnd)
      invariant newSubscriptions == NewCount(subs[..i], year, month)
    {
      var sub := subs[i];
      assert subs[..i + 1][..i] == subs[..i] && subs[..i + 1][i] == sub;
      var created := sub.createdOn;
      if created.year == year && created.month == month {
        newSubscriptions := newSubscriptions + 1;
      }
      if NotAfter(created, monthEnd) {
        var isActive := true;
        if sub.endDate.Some? && NotAfter(sub.endDate.value, monthEnd) {
          isActive := false;
        }
        if isActive {
          activeCount := activeCount + 1;
          totalMonthly := totalMonthly + MonthlyAmount(sub.billingCycle, sub.amount);
        }
      }
    }
    assert subs[..|subs|] == subs;
    entry := TrendEntry(year, month, activeCount, totalMonthly, newSubscriptions);
  }

  /** The month after month `k` in the numbering is the calendar's next month. */
  lemma NextMonthIndex(k: int)
    ensures var (y, m) := MonthOfIndex(k);
            MonthOfIndex(k + 1) == if m == 12 then (y + 1, 1) else (y, m + 1)
  {
  }

  function MaxInt(a: int, b: int): int {
    if a < b then b else a
  }

  /** `get_subscription_trend_report(user, months)` run on day `today`: one entry per
      calendar month from the month of `today - 30 * months` through the month of
      `today`, in order. */
  method TrendReport(db: Db, userId: int, today: Date, months: int) returns (data: seq<TrendEntry>)
    requires ValidDate(today)
    ensures var start := AddDays(today, -30 * months);
      var subs := CreatedSince(db.subscriptions, userId, start);
      var first := MonthIndex(start.year, start.month);
      var last := MonthIndex(today.year, today.month);
      && |data| == MaxInt(0, last - first + 1)
      && (forall i :: 0 <= i < |data| ==>
            data[i] == TrendEntryOf(subs, MonthOfIndex(first + i).0, MonthOfIndex(first + i).1))
  {
    var startDate := AddDays(today, -30 * months);
    var subs := CreatedSince(db.subscriptions, userId, startDate);
    data := TrendMonths(subs, startDate, today);
  }

  /** The month loop of `get_subscription_trend_report`, from the month of
      `start` through the month of `today`. */
  method TrendMonths(subs: seq<Subscription>, start: Date, today: Date) returns (data: seq<TrendEntry>)
    requires ValidDate(start) && ValidDate(today)
    ensures var first := MonthIndex(start.year, start.month);
      var last := MonthIndex(today.year, today.month);
      && |data| == MaxInt(0, last - first + 1)
      && (forall i :: 0 <= i < |data| ==>
            data[i] == TrendEntryOf(subs, MonthOfIndex(first + i).0, MonthOfIndex(first + i).1))
  {
    ghost var first := MonthIndex(start.year, start.month);
    ghost var last := MonthIndex(today.year, today.month);
    var current := WithDayOne(start);
    var endOfMonth := WithDayOne(today);
    data := [];
    while NotAfter(current, endOfMonth)
      invariant current.day == 1 && 1 <= current.month <= 12
      invariant MonthIndex(current.year, current.month) == first + |data|
      invariant first + |data| <= MaxInt(first, last + 1)
      invariant forall i :: 0 <= i < |data| ==>
                  data[i] == TrendEntryOf(subs, MonthOfIndex(first + i).0, MonthOfIndex(first + i).1)
      decreases last - MonthIndex(current.year, current.month)
    {
      var year := current.year;
      var month := current.month;
      assert MonthOfIndex(first + |data|) == (year, month);
      var entry := CountMonth(subs, year, month);
      data := data + [entry];
      if month == 12 {
        current := Date(year + 1, 1, 1);
      } else {
        current := Date(year, month + 1, 1);
      }
    }
  }
}
