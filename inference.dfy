/** The subscription inference of backend/app/services/email_parser_service.py:
    the detection loop and the dedupe of `parse_subscription_emails`, and the
    materializer `create_subscriptions_from_emails`. */
module Inference {
  import opened Common
  import opened Text
  import opened Dates
  import opened Schemas
  import opened Records
  import opened Store
  import opened Billing
  import opened Amounts
  import opened Services
  import opened BillingDates

  /** One fetched email, subject and body already decoded. */
  datatype EmailData = EmailData(sender: string, subject: string, receivedDate: DateTime, body: string)

  /** A detected subscription (the `subscription_info` dict). */
  datatype Candidate = Candidate(
    name: string,
    amount: real,
    billingDate: Date,
    categoryId: Option<int>,
    emailSender: string,
    emailSubject: string)

  /** `if service_name and amount`: a recognised service and a non-zero amount. */
  predicate Detectable(info: ServiceInfo) {
    info.service.Some? && info.service.value != "" && info.amount.Some? && info.amount.value != 0.0
  }

  /** The body of the detection loop for one email. The billing date is the
      one found in the body, else the day 30 days after the email arrived. */
  function CandidateOf(e: EmailData): Option<Candidate>
    requires ValidDateTime(e.receivedDate)
  {
    var info := ServiceInfoOf(e.sender, e.subject, e.body);
    if !Detectable(info) then None
    else
      var found := BillingDateOf(e.body);
      var date := if found.Some? then found.value else AddDays(e.receivedDate.date, 30);
      Some(Candidate(Title(info.service.value), info.amount.value, date, info.categoryId, e.sender, e.subject))
  }

  /** Every amount the extractor returns is non-negative. */
  lemma AmountInNonNegative(t: string, patterns: seq<AmountPattern>)
    ensures AmountIn(t, patterns).Some? ==> AmountIn(t, patterns).value >= 0.0
  {
    if AmountIn(t, patterns).Some? {
      AmountInFirst(t, patterns);
    }
  }

  /** A candidate exists exactly for an email the matcher recognises with a
      non-zero amount; it then carries a positive amount, the service name
      title-cased, a real billing date, and the email's sender and subject. */
  lemma CandidateSpec(e: EmailData)
    requires ValidDateTime(e.receivedDate)
    ensures var info := ServiceInfoOf(e.sender, e.subject, e.body);
      CandidateOf(e).Some? <==> Detectable(info)
    ensures var info := ServiceInfoOf(e.sender, e.subject, e.body);
      CandidateOf(e).Some? ==> var c := CandidateOf(e).value;
        && c.amount > 0.0
        && c.name == Title(info.service.value)
        && Lower(c.name) == Lower(info.service.value)
        && c.categoryId == info.categoryId
        && ValidDate(c.billingDate)
        && (BillingDateOf(e.body).Some? ==> c.billingDate == BillingDateOf(e.body).value)
        && (BillingDateOf(e.body).None? ==> c.billingDate == AddDays(e.receivedDate.date, 30))
        && (BillingDateOf(e.body).None? ==> Before(e.receivedDate.date, c.billingDate))
        && c.emailSender == e.sender && c.emailSubject == e.subject
  {
    var info := ServiceInfoOf(e.sender, e.subject, e.body);
    if Detectable(info) {
      ServiceInfoSpec(e.sender, e.subject, e.body);
      var k :| 0 <= k < |KnownServices| && Hits(KnownServices[k], CleanText(e.sender), CleanText(e.subject))
               && (forall j :: 0 <= j < k ==> !Hits(KnownServices[j], CleanText(e.sender), CleanText(e.subject)))
               && info.service == Some(KnownServices[k].name)
               && info.categoryId == Some(KnownServices[k].categoryId)
               && (AmountIn(CleanText(e.subject), KnownServices[k].amounts).Some? ==>
                     info.amount == AmountIn(CleanText(e.subject), KnownServices[k].amounts))
               && (AmountIn(CleanText(e.subject), KnownServices[k].amounts).None? ==>
                     info.amount == AmountIn(CleanText(e.body), KnownServices[k].amounts));
      AmountInNonNegative(CleanText(e.subject), KnownServices[k].amounts);
      AmountInNonNegative(CleanText(e.body), KnownServices[k].amounts);
      TitleLower(info.service.value);
      var found := BillingDateOf(e.body);
      if found.Some? {
        BillingDateShape(e.body);
      }
    }
  }

  predicate ValidEmails(emails: seq<EmailData>) {
    forall i :: 0 <= i < |emails| ==> ValidDateTime(emails[i].receivedDate)
  }

  /** `detected_subscriptions`: the candidates of the emails, in email order. */
  function Detected(emails: seq<EmailData>): (r: seq<Candidate>)
    requires ValidEmails(emails)
    ensures |r| <= |emails|
    decreases |emails|
  {
    if emails == [] then []
    else
      var p := emails[..|emails| - 1];
      assert ValidEmails(p) by {
        assert forall i :: 0 <= i < |p| ==> p[i] == emails[i];
      }
      var c := CandidateOf(emails[|emails| - 1]);
      Detected(p) + (if c.Some? then [c.value] else [])
  }

  /** Every detected candidate has a positive amount. */
  lemma {:induction false} DetectedPositive(emails: seq<EmailData>)
    requires ValidEmails(emails)
    ensures forall j :: 0 <= j < |Detected(emails)| ==> Detected(emails)[j].amount > 0.0
    decreases |emails|
  {
    if emails != [] {
      var p := emails[..|emails| - 1];
      assert forall i :: 0 <= i < |p| ==> p[i] == emails[i];
      DetectedPositive(p);
      CandidateSpec(emails[|emails| - 1]);
    }
  }

  /** The detection loop of `parse_subscription_emails`. */
  method DetectSubscriptions(emails: seq<EmailData>) returns (detected: seq<Candidate>)
    requires ValidEmails(emails)
    ensures detected == Detected(emails)
  {
    detected := [];
    for i := 0 to |emails|
      invariant detected == Detected(emails[..i])
    {
      var e := emails[i];
      assert emails[..i + 1][..i] == emails[..i];
      var c := DetectOne(e);
      if c.Some? {
        detected := detected + [c.value];
      }
    }
    assert emails[..|emails|] == emails;
  }

  /** The body of the detection loop for one email: the service, then the
      billing date from the body or else 30 days after arrival. */
  method DetectOne(e: EmailData) returns (c: Option<Candidate>)
    requires ValidDateTime(e.receivedDate)
    ensures c == CandidateOf(e)
  {
    var info := ExtractServiceInfo(e.sender, e.subject, e.body);
    if info.service.Some? && info.service.value != "" && info.amount.Some? && info.amount.value != 0.0 {
      var found := ExtractBillingDate(e.body);
      var date := if found.Some? then found.value else AddDays(e.receivedDate.date, 30);
      c := Some(Candidate(Title(info.service.value), info.amount.value, date, info.categoryId, e.sender, e.subject));
    } else {
      c := None;
    }
  }

  /** The dedupe key: the lower-cased name. */
  function Key(c: Candidate): string {
    Lower(c.name)
  }

  /** The `unique_subscriptions` dict: its keys in insertion order and its entries. */
  datatype Unique = Unique(keys: seq<string>, table: map<string, Candidate>)

  /** Every listed key has an entry. */
  ghost predicate Listed(u: Unique) {
    forall i :: 0 <= i < |u.keys| ==> u.keys[i] in u.table
  }

  /** One step of the dedupe loop: a new name is appended, and an existing
      one is replaced, in place, only by a strictly larger amount. */
  function Insert(u: Unique, c: Candidate): (v: Unique)
    ensures Listed(u) ==> Listed(v)
    ensures Key(c) in v.table
  {
    var k := Key(c);
    if k !in u.table then Unique(u.keys + [k], u.table[k := c])
    else if u.table[k].amount < c.amount then Unique(u.keys, u.table[k := c])
    else u
  }

  /** The dict after the dedupe loop. */
  function Deduped(cands: seq<Candidate>): (u: Unique)
    ensures Listed(u)
    decreases |cands|
  {
    if cands == [] then Unique([], map[])
    else Insert(Deduped(cands[..|cands| - 1]), cands[|cands| - 1])
  }

  /** `list(unique_subscriptions.values())`. */
  function Values(u: Unique): seq<Candidate>
    requires Listed(u)
  {
    seq(|u.keys|, i requires 0 <= i < |u.keys| => u.table[u.keys[i]])
  }

  /** The position of the first candidate with key `k`. */
  function FirstWithKey(cands: seq<Candidate>, k: string): (r: Option<nat>)
    ensures r.Some? ==> r.value < |cands| && Key(cands[r.value]) == k
    ensures r.Some? ==> forall i :: 0 <= i < r.value ==> Key(cands[i]) != k
    ensures r.None? <==> forall i :: 0 <= i < |cands| ==> Key(cands[i]) != k
  {
    var p := (c: Candidate) => Key(c) == k;
    var r := FirstIndex(cands, p);
    assert r.Some? ==> forall i :: 0 <= i < r.value ==> !p(cands[i]);
    assert r.None? <==> forall i :: 0 <= i < |cands| ==> !p(cands[i]);
    r
  }

  /** The dict's keys are exactly the listed keys. */
  ghost predicate KeysListed(u: Unique) {
    forall k :: k in u.table <==> k in u.keys
  }

  lemma {:induction false} DedupedKeys(cands: seq<Candidate>)
    ensures KeysListed(Deduped(cands))
    decreases |cands|
  {
    if cands != [] {
      DedupedKeys(cands[..|cands| - 1]);
    }
  }

  /** No key is listed twice. */
  ghost predicate KeysDistinct(u: Unique) {
    forall a, b :: 0 <= a < b < |u.keys| ==> u.keys[a] != u.keys[b]
  }

  lemma {:induction false} DedupedDistinct(cands: seq<Candidate>)
    ensures KeysDistinct(Deduped(cands))
    decreases |cands|
  {
    if cands != [] {
      DedupedDistinct(cands[..|cands| - 1]);
      DedupedKeys(cands[..|cands| - 1]);
    }
  }

  /** Each entry is filed under its own key. */
  ghost predicate Filed(u: Unique) {
    forall k :: k in u.table ==> Key(u.table[k]) == k
  }

  lemma {:induction false} DedupedFiled(cands: seq<Candidate>)
    ensures Filed(Deduped(cands))
    decreases |cands|
  {
    if cands != [] {
      DedupedFiled(cands[..|cands| - 1]);
    }
  }

  /** Each entry carries the largest amount among the candidates of its key. */
  ghost predicate KeepsMax(cands: seq<Candidate>, u: Unique) {
    forall j :: 0 <= j < |cands| ==>
      Key(cands[j]) in u.table && cands[j].amount <= u.table[Key(cands[j])].amount
  }

  lemma {:induction false} DedupedMax(cands: seq<Candidate>)
    ensures KeepsMax(cands, Deduped(cands))
    decreases |cands|
  {
    if cands != [] {
      var p := cands[..|cands| - 1];
      DedupedMax(p);
      assert forall j :: 0 <= j < |p| ==> cands[j] == p[j];
    }
  }

  /** Candidate `j` beats every earlier candidate of its key. */
  predicate BeatsEarlier(cands: seq<Candidate>, j: nat)
    requires j < |cands|
  {
    forall i :: 0 <= i < j && Key(cands[i]) == Key(cands[j]) ==> cands[i].amount < cands[j].amount
  }

  lemma BeatsEarlierPrefix(p: seq<Candidate>, c: Candidate, j: nat)
    requires j < |p| && BeatsEarlier(p, j)
    ensures (p + [c])[j] == p[j] && BeatsEarlier(p + [c], j)
  {
    var q := p + [c];
    assert forall i :: 0 <= i <= j ==> q[i] == p[i];
  }

  /** Among the candidates of the largest amount, the entry is the earliest:
      it is a candidate of its key that beats every earlier one. */
  ghost predicate KeepsEarliest(cands: seq<Candidate>, u: Unique) {
    forall k :: k in u.table ==>
      exists j :: 0 <= j < |cands| && cands[j] == u.table[k] && BeatsEarlier(cands, j)
  }

  /** A candidate that is filed beats every earlier candidate of its key. */
  lemma FiledBeats(p: seq<Candidate>, u: Unique, c: Candidate)
    requires KeepsMax(p, u) && Files(u, c)
    ensures BeatsEarlier(p + [c], |p|)
  {
    var q := p + [c];
    forall i | 0 <= i < |p| && Key(q[i]) == Key(q[|p|])
      ensures q[i].amount < q[|p|].amount
    {
      assert q[i] == p[i];
    }
  }

  /** Insert leaves the other keys' entries, and a key it does not file, alone. */
  lemma InsertOthers(u: Unique, c: Candidate, k: string)
    requires k in Insert(u, c).table
    requires k != Key(c) || !Files(u, c)
    ensures k in u.table && Insert(u, c).table[k] == u.table[k]
  {
    if k == Key(c) {
      assert Insert(u, c) == u;
    }
  }

  /** Whether Insert files `c`: its key is new, or its amount is strictly larger. */
  predicate Files(u: Unique, c: Candidate) {
    Key(c) !in u.table || u.table[Key(c)].amount < c.amount
  }

  /** A candidate the dict files beats every earlier candidate of its key. */
  lemma FiledBeatsEarlier(p: seq<Candidate>, c: Candidate)
    ensures Files(Deduped(p), c) ==> BeatsEarlier(p + [c], |p|)
  {
    if Files(Deduped(p), c) {
      DedupedMax(p);
      FiledBeats(p, Deduped(p), c);
    }
  }

  /** An entry Insert leaves alone keeps its earlier witness. */
  lemma KeptEarliest(p: seq<Candidate>, u: Unique, c: Candidate, k: string)
    requires KeepsEarliest(p, u)
    requires k in Insert(u, c).table
    requires k != Key(c) || !Files(u, c)
    ensures exists j :: 0 <= j < |p + [c]| && (p + [c])[j] == Insert(u, c).table[k] && BeatsEarlier(p + [c], j)
  {
    InsertOthers(u, c, k);
    var j :| 0 <= j < |p| && p[j] == u.table[k] && BeatsEarlier(p, j);
    BeatsEarlierPrefix(p, c, j);
  }

  lemma InsertEarliest(p: seq<Candidate>, u: Unique, c: Candidate)
    requires KeepsEarliest(p, u)
    requires Files(u, c) ==> BeatsEarlier(p + [c], |p|)
    ensures KeepsEarliest(p + [c], Insert(u, c))
  {
    forall k | k in Insert(u, c).table
      ensures exists j :: 0 <= j < |p + [c]| && (p + [c])[j] == Insert(u, c).table[k] && BeatsEarlier(p + [c], j)
    {
      if k == Key(c) && Files(u, c) {
        assert (p + [c])[|p|] == Insert(u, c).table[k];
      } else {
        KeptEarliest(p, u, c, k);
      }
    }
  }

  lemma {:induction false} DedupedEarliest(cands: seq<Candidate>)
    ensures KeepsEarliest(cands, Deduped(cands))
    decreases |cands|
  {
    if cands != [] {
      var p := cands[..|cands| - 1];
      var c := cands[|cands| - 1];
      assert cands == p + [c];
      DedupedEarliest(p);
      FiledBeatsEarlier(p, c);
      InsertEarliest(p, Deduped(p), c);
    }
  }

  /** A key's first candidate is at the same place once more candidates follow. */
  lemma FirstWithKeyAppend(p: seq<Candidate>, c: Candidate, k: string)
    ensures FirstWithKey(p, k).Some? ==> FirstWithKey(p + [c], k) == FirstWithKey(p, k)
    ensures FirstWithKey(p, k).None? && Key(c) == k ==> FirstWithKey(p + [c], k) == Some(|p|)
  {
    var q := p + [c];
    assert forall i :: 0 <= i < |p| ==> q[i] == p[i];
    var r := FirstWithKey(q, k);
    if FirstWithKey(p, k).Some? {
      var j := FirstWithKey(p, k).value;
      assert Key(q[j]) == k;
      assert r.Some? && r.value <= j;
    } else if Key(c) == k {
      assert Key(q[|p|]) == k;
    }
  }

  /** The keys come in the order in which each name first appeared. */
  ghost predicate FirstAppearanceOrder(cands: seq<Candidate>, u: Unique) {
    forall a, b :: 0 <= a < b < |u.keys| ==>
      && FirstWithKey(cands, u.keys[a]).Some? && FirstWithKey(cands, u.keys[b]).Some?
      && FirstWithKey(cands, u.keys[a]).value < FirstWithKey(cands, u.keys[b]).value
  }

  /** Every listed key is the key of some candidate. */
  ghost predicate KeysOccur(cands: seq<Candidate>, u: Unique) {
    forall a :: 0 <= a < |u.keys| ==> FirstWithKey(cands, u.keys[a]).Some?
  }

  /** The listed keys' first candidates stay where they were. */
  lemma FirstsUnchanged(p: seq<Candidate>, u: Unique, c: Candidate)
    requires KeysOccur(p, u)
    ensures forall a :: 0 <= a < |u.keys| ==> FirstWithKey(p + [c], u.keys[a]) == FirstWithKey(p, u.keys[a])
  {
    forall a | 0 <= a < |u.keys|
      ensures FirstWithKey(p + [c], u.keys[a]) == FirstWithKey(p, u.keys[a])
    {
      FirstWithKeyAppend(p, c, u.keys[a]);
    }
  }

  /** A key without an entry belongs to no candidate so far. */
  lemma UnseenKey(p: seq<Candidate>, u: Unique, k: string)
    requires KeepsMax(p, u) && k !in u.table
    ensures FirstWithKey(p, k).None?
  {
    assert forall i :: 0 <= i < |p| ==> Key(p[i]) in u.table;
  }

  /** A new key is listed after all the others, and first appears after them. */
  lemma InsertOrderNew(p: seq<Candidate>, u: Unique, c: Candidate)
    requires KeysOccur(p, u) && FirstAppearanceOrder(p, u)
    requires Key(c) !in u.table && FirstWithKey(p, Key(c)).None?
    ensures KeysOccur(p + [c], Insert(u, c)) && FirstAppearanceOrder(p + [c], Insert(u, c))
  {
    var q := p + [c];
    var v := Insert(u, c);
    FirstsUnchanged(p, u, c);
    FirstWithKeyAppend(p, c, Key(c));
    NewKeyListedLast(u, c);
    forall a, b | 0 <= a < b < |v.keys|
      ensures && FirstWithKey(q, v.keys[a]).Some? && FirstWithKey(q, v.keys[b]).Some?
              && FirstWithKey(q, v.keys[a]).value < FirstWithKey(q, v.keys[b]).value
    {
      assert v.keys[a] == u.keys[a];
      if b < |u.keys| {
        assert v.keys[b] == u.keys[b];
      } else {
        assert v.keys[b] == Key(c);
        assert FirstWithKey(p, u.keys[a]).value < |p|;
      }
    }
    forall a | 0 <= a < |v.keys|
      ensures FirstWithKey(q, v.keys[a]).Some?
    {
      if a < |u.keys| {
        assert v.keys[a] == u.keys[a];
      }
    }
  }

  /** Inserting a new key appends it to the listed keys. */
  lemma NewKeyListedLast(u: Unique, c: Candidate)
    requires Key(c) !in u.table
    ensures |Insert(u, c).keys| == |u.keys| + 1
    ensures forall a :: 0 <= a < |u.keys| ==> Insert(u, c).keys[a] == u.keys[a]
    ensures Insert(u, c).keys[|u.keys|] == Key(c)
  {
  }

  lemma InsertOrder(p: seq<Candidate>, u: Unique, c: Candidate)
    requires KeysOccur(p, u) && FirstAppearanceOrder(p, u) && KeepsMax(p, u)
    ensures KeysOccur(p + [c], Insert(u, c)) && FirstAppearanceOrder(p + [c], Insert(u, c))
  {
    if Key(c) !in u.table {
      UnseenKey(p, u, Key(c));
      InsertOrderNew(p, u, c);
    } else {
      FirstsUnchanged(p, u, c);
      assert Insert(u, c).keys == u.keys;
    }
  }

  lemma {:induction false} DedupedOrder(cands: seq<Candidate>)
    ensures KeysOccur(cands, Deduped(cands))
    ensures FirstAppearanceOrder(cands, Deduped(cands))
    decreases |cands|
  {
    if cands != [] {
      var p := cands[..|cands| - 1];
      assert cands == p + [cands[|cands| - 1]];
      DedupedOrder(p);
      DedupedMax(p);
      InsertOrder(p, Deduped(p), cands[|cands| - 1]);
    }
  }

  /** The dedupe loop of `parse_subscription_emails`, then the dict's values. */
  method Dedupe(cands: seq<Candidate>) returns (unique: seq<Candidate>)
    ensures unique == Values(Deduped(cands))
  {
    var keys: seq<string> := [];
    var table: map<string, Candidate> := map[];
    for i := 0 to |cands|
      invariant Unique(keys, table) == Deduped(cands[..i])
    {
      var c := cands[i];
      var k := Lower(c.name);
      assert cands[..i + 1][..i] == cands[..i];
      if k !in table || table[k].amount < c.amount {
        if k !in table {
          keys := keys + [k];
        }
        table := table[k := c];
      }
    }
    assert cands[..|cands|] == cands;
    unique := seq(|keys|, j requires 0 <= j < |keys| => table[keys[j]]);
  }

  /** `parse_subscription_emails` on the fetched emails. */
  method ParseSubscriptionEmails(emails: seq<EmailData>) returns (unique: seq<Candidate>)
    requires ValidEmails(emails)
    ensures unique == Values(Deduped(Detected(emails)))
  {
    var detected := DetectSubscriptions(emails);
    unique := Dedupe(detected);
  }

  /** Amounts above one million are taken to be annual fees. */
  const AnnualThreshold: real := 1000000.0

  function CycleFor(amount: real): (c: BillingCycle)
    ensures c == Annual <==> amount > AnnualThreshold
    ensures c != Annual ==> c == Monthly
  {
    if amount > AnnualThreshold then Annual else Monthly
  }

  /** The date adjustment: a date before today moves on once, by a month
      (`replace(month=m+1)`, or January of the next year) or by a year
      (`replace(year=y+1)`); `replace` raises (None) on a day the target month
      lacks. A date on or after today is kept. */
  function AdvancedOnce(cycle: BillingCycle, d: Date, today: Date): Option<Date> {
    if !Before(d, today) then Some(d)
    else if cycle == Monthly then
      (if d.month == 12 then MakeDate(d.year + 1, 1, d.day) else MakeDate(d.year, d.month + 1, d.day))
    else if cycle == Annual then MakeDate(d.year + 1, d.month, d.day)
    else Some(d)
  }

  /** A kept date is the detected one. A monthly advance lands on the same day
      of the next month and fails exactly when that month is too short; an
      annual advance lands on the same day a year on and fails exactly on
      29 February before a non-leap year. Any result is a real date no
      earlier than the detected one. */
  lemma AdvancedOnceSpec(cycle: BillingCycle, d: Date, today: Date)
    requires ValidDate(d)
    ensures !Before(d, today) ==> AdvancedOnce(cycle, d, today) == Some(d)
    ensures Before(d, today) && cycle == Monthly ==>
              var next := MonthOfIndex(MonthIndex(d.year, d.month) + 1);
              && (AdvancedOnce(cycle, d, today).Some? <==> d.day <= DaysInMonth(next.0, next.1))
              && (AdvancedOnce(cycle, d, today).Some? ==> AdvancedOnce(cycle, d, today).value == Date(next.0, next.1, d.day))
    ensures Before(d, today) && cycle == Annual ==>
              && (AdvancedOnce(cycle, d, today).None? <==> d.month == 2 && d.day == 29 && !IsLeap(d.year + 1))
              && (AdvancedOnce(cycle, d, today).Some? ==> AdvancedOnce(cycle, d, today).value == Date(d.year + 1, d.month, d.day))
    ensures AdvancedOnce(cycle, d, today).Some? ==>
              ValidDate(AdvancedOnce(cycle, d, today).value) && NotAfter(d, AdvancedOnce(cycle, d, today).value)
  {
    var next := MonthOfIndex(MonthIndex(d.year, d.month) + 1);
    if d.month == 12 {
      assert next == (d.year + 1, 1);
    } else {
      assert next == (d.year, d.month + 1);
    }
  }

  /** The date is advanced at most once, so it can stay in the past. */
  lemma AdvanceMayStayInPast()
    ensures AdvancedOnce(Monthly, Date(2020, 1, 15), Date(2024, 6, 1)) == Some(Date(2020, 2, 15))
    ensures Before(Date(2020, 2, 15), Date(2024, 6, 1))
  {
  }

  /** 31 January advanced monthly and 29 February advanced yearly both raise. */
  lemma AdvanceRaises()
    ensures AdvancedOnce(Monthly, Date(2024, 1, 31), Date(2024, 6, 1)) == None
    ensures AdvancedOnce(Annual, Date(2024, 2, 29), Date(2024, 6, 1)) == None
  {
  }

  /** `Subscription.name.ilike(f"%{name}%")` among the user's rows: some name of
      theirs contains the candidate's, ignoring case. */
  predicate NameTaken(subs: seq<Subscription>, userId: int, name: string) {
    exists i :: 0 <= i < |subs| && subs[i].userId == userId && Contains(Lower(subs[i].name), Lower(name))
  }

  /** The fields `create_subscriptions_from_emails` passes to `SubscriptionCreate`. */
  function CreateInput(c: Candidate, cycle: BillingCycle, next: Date, today: Date, stamp: string): SubscriptionCreateInput {
    SubscriptionCreateInput(
      c.name,
      Some("Automatically detected from email: " + c.emailSubject),
      c.amount,
      Some("IDR"),
      Some(cycle),
      next.day,
      next,
      Some(today),
      None,
      Some(true),
      Some(3),
      None,
      Some("Created automatically from email parsing on " + stamp),
      Some(true),
      c.categoryId)
  }

  /** What the body of the materializer loop prepares for one candidate, or
      None where it skips it: a taken name, a raising date adjustment or a
      failed schema check. */
  function Prepared(subs: seq<Subscription>, userId: int, c: Candidate, today: Date, stamp: string): Option<SubscriptionCreate> {
    if NameTaken(subs, userId, c.name) then None
    else
      var cycle := CycleFor(c.amount);
      match AdvancedOnce(cycle, c.billingDate, today)
      case None => None
      case Some(next) =>
        match ValidateCreate(CreateInput(c, cycle, next, today, stamp), today)
        case Err(_) => None
        case Ok(sc) => Some(sc)
  }

  /** The state the materializer threads through its loop. */
  datatype Materialization = Materialization(subs: seq<Subscription>, nextId: int, created: seq<Subscription>)

  /** One candidate: prepared, then stored by `create_subscription` (whose
      404 for a foreign category is caught, skipping the candidate). */
  function MaterializeStep(m: Materialization, cats: seq<Category>, userId: int, c: Candidate,
                           today: Date, stamp: string): Materialization
  {
    match Prepared(m.subs, userId, c, today, stamp)
    case None => m
    case Some(sc) =>
      match CreateInTable(m.subs, cats, m.nextId, sc, userId, today)
      case Err(_) => m
      case Ok((subs, row)) => Materialization(subs, m.nextId + 1, m.created + [row])
  }

  /** The state after the materializer has gone through `cands` in order. */
  function Materialized(subs: seq<Subscription>, cats: seq<Category>, nextId: int, userId: int,
                        cands: seq<Candidate>, today: Date, stamp: string): Materialization
    decreases |cands|
  {
    if cands == [] then Materialization(subs, nextId, [])
    else
      MaterializeStep(Materialized(subs, cats, nextId, userId, cands[..|cands| - 1], today, stamp),
                      cats, userId, cands[|cands| - 1], today, stamp)
  }

  /** A candidate is stored exactly when its name is free, its date adjusts, its
      amount is positive and its category is the user's. The row then has the
      cycle the amount decides, the adjusted date, that date's day as billing
      day, and the fixed defaults. */
  lemma PreparedSpec(subs: seq<Subscription>, cats: seq<Category>, userId: int, c: Candidate,
                     today: Date, stamp: string)
    requires ValidDate(c.billingDate)
    ensures var r := Prepared(subs, userId, c, today, stamp);
      var next := AdvancedOnce(CycleFor(c.amount), c.billingDate, today);
      && (r.Some? <==> !NameTaken(subs, userId, c.name) && next.Some? && c.amount > 0.0)
      && (r.Some? ==>
            var sc := r.value;
            && sc.name == c.name && sc.amount == c.amount && sc.categoryId == c.categoryId
            && (sc.billingCycle == Annual <==> c.amount > AnnualThreshold)
            && (sc.billingCycle != Annual ==> sc.billingCycle == Monthly)
            && sc.nextBillingDate == next.value && ValidDate(sc.nextBillingDate)
            && sc.billingDay == sc.nextBillingDate.day
            && CreateConstraints(sc.amount, sc.billingDay)
            && sc.currency == "IDR" && sc.startDate == today && sc.endDate.None?
            && sc.autoRenew && sc.reminderDays == 3 && sc.isActive && sc.websiteUrl.None?
            && sc.description == Some("Automatically detected from email: " + c.emailSubject)
            && sc.notes == Some("Created automatically from email parsing on " + stamp))
  {
    AdvancedOnceSpec(CycleFor(c.amount), c.billingDate, today);
  }

  /** The materializer only appends: the table grows by exactly the created
      rows, numbered on from `nextId`. */
  ghost predicate Grown(subs: seq<Subscription>, nextId: int, userId: int, n: nat, m: Materialization) {
    && m.subs == subs + m.created
    && m.nextId == nextId + |m.created|
    && |m.created| <= n
    && forall j :: 0 <= j < |m.created| ==> m.created[j].id == nextId + j && m.created[j].userId == userId
  }

  lemma {:induction false} MaterializedGrows(subs: seq<Subscription>, cats: seq<Category>, nextId: int, userId: int,
                                             cands: seq<Candidate>, today: Date, stamp: string)
    ensures Grown(subs, nextId, userId, |cands|, Materialized(subs, cats, nextId, userId, cands, today, stamp))
    decreases |cands|
  {
    if cands != [] {
      var p := cands[..|cands| - 1];
      MaterializedGrows(subs, cats, nextId, userId, p, today, stamp);
      var m := Materialized(subs, cats, nextId, userId, p, today, stamp);
      var c := cands[|cands| - 1];
      match Prepared(m.subs, userId, c, today, stamp)
      case None =>
      case Some(sc) =>
        match CreateInTable(m.subs, cats, m.nextId, sc, userId, today)
        case Err(_) =>
        case Ok((s, row)) =>
          assert s == subs + (m.created + [row]);
    }
  }

  predicate ValidDates(cands: seq<Candidate>) {
    forall i :: 0 <= i < |cands| ==> ValidDate(cands[i].billingDate)
  }

  /** Every created row satisfies the subscription schema, and its category,
      if any, is the user's. */
  ghost predicate RowsAccepted(cats: seq<Category>, userId: int, created: seq<Subscription>) {
    forall j :: 0 <= j < |created| ==>
      SchemaValid(created[j]) && CategoryAccepted(cats, userId, created[j].categoryId)
  }

  lemma {:induction false} MaterializedValid(subs: seq<Subscription>, cats: seq<Category>, nextId: int, userId: int,
                                             cands: seq<Candidate>, today: Date, stamp: string)
    requires ValidDates(cands)
    ensures RowsAccepted(cats, userId, Materialized(subs, cats, nextId, userId, cands, today, stamp).created)
    decreases |cands|
  {
    if cands != [] {
      var p := cands[..|cands| - 1];
      assert ValidDates(p) by {
        assert forall i :: 0 <= i < |p| ==> p[i] == cands[i];
      }
      MaterializedValid(subs, cats, nextId, userId, p, today, stamp);
      var m := Materialized(subs, cats, nextId, userId, p, today, stamp);
      var c := cands[|cands| - 1];
      PreparedSpec(m.subs, cats, userId, c, today, stamp);
      match Prepared(m.subs, userId, c, today, stamp)
      case None =>
      case Some(sc) =>
        match CreateInTable(m.subs, cats, m.nextId, sc, userId, today)
        case Err(_) =>
        case Ok((s, row)) =>
          assert SchemaValid(row) && row.categoryId == sc.categoryId;
    }
  }

  /** No created row's name contains a later created row's name, ignoring
      case: the later one would have been skipped as taken. */
  ghost predicate NoNameContained(created: seq<Subscription>) {
    forall a, b :: 0 <= a < b < |created| ==> !Contains(Lower(created[a].name), Lower(created[b].name))
  }

  lemma {:induction false} NoDuplicateCreation(subs: seq<Subscription>, cats: seq<Category>, nextId: int, userId: int,
                                               cands: seq<Candidate>, today: Date, stamp: string)
    ensures NoNameContained(Materialized(subs, cats, nextId, userId, cands, today, stamp).created)
    decreases |cands|
  {
    if cands != [] {
      var p := cands[..|cands| - 1];
      NoDuplicateCreation(subs, cats, nextId, userId, p, today, stamp);
      MaterializedGrows(subs, cats, nextId, userId, p, today, stamp);
      var m := Materialized(subs, cats, nextId, userId, p, today, stamp);
      var c := cands[|cands| - 1];
      match Prepared(m.subs, userId, c, today, stamp)
      case None =>
      case Some(sc) =>
        match CreateInTable(m.subs, cats, m.nextId, sc, userId, today)
        case Err(_) =>
        case Ok((s, row)) =>
          var created := m.created + [row];
          assert !NameTaken(m.subs, userId, c.name);
          forall a | 0 <= a < |m.created|
            ensures !Contains(Lower(created[a].name), Lower(created[|m.created|].name))
          {
            assert m.subs[|subs| + a] == m.created[a];
          }
    }
  }

  /** A candidate named like one of the user's existing rows creates nothing. */
  lemma TakenNameSkipped(m: Materialization, cats: seq<Category>, userId: int, c: Candidate,
                         today: Date, stamp: string)
    requires NameTaken(m.subs, userId, c.name)
    ensures MaterializeStep(m, cats, userId, c, today, stamp) == m
  {
  }

  /** A candidate whose category the user does not own creates nothing. */
  lemma ForeignCategorySkipped(m: Materialization, cats: seq<Category>, userId: int, c: Candidate,
                               today: Date, stamp: string)
    requires c.categoryId.Some? && c.categoryId.value != 0
    requires FindCategory(cats, c.categoryId.value, userId).None?
    ensures MaterializeStep(m, cats, userId, c, today, stamp) == m
  {
    match Prepared(m.subs, userId, c, today, stamp)
    case None =>
    case Some(sc) =>
      assert sc.categoryId == c.categoryId;
  }

  /** The loop of `create_subscriptions_from_emails` over the detected
      candidates; it returns the rows it created. */
  method CreateSubscriptionsFromEmails(db: Db, userId: int, detected: seq<Candidate>, today: Date, stamp: string)
    returns (created: seq<Subscription>)
    requires db.Valid() && ValidDates(detected)
    modifies db
    ensures db.Valid()
    ensures var m := Materialized(old(db.subscriptions), old(db.categories), old(db.nextSubscriptionId),
                                  userId, detected, today, stamp);
      db.subscriptions == m.subs && db.nextSubscriptionId == m.nextId && created == m.created
    ensures db.categories == old(db.categories) && db.payments == old(db.payments)
    ensures db.notifications == old(db.notifications)
    ensures db.nextPaymentId == old(db.nextPaymentId)
    ensures db.nextNotificationId == old(db.nextNotificationId)
  {
    ghost var subs0 := db.subscriptions;
    ghost var id0 := db.nextSubscriptionId;
    created := [];
    for i := 0 to |detected|
      invariant Materialization(db.subscriptions, db.nextSubscriptionId, created)
                == Materialized(subs0, db.categories, id0, userId, detected[..i], today, stamp)
      invariant db.Valid()
      invariant db.categories == old(db.categories) && db.payments == old(db.payments)
      invariant db.notifications == old(db.notifications)
      invariant db.nextPaymentId == old(db.nextPaymentId)
      invariant db.nextNotificationId == old(db.nextNotificationId)
    {
      var c := detected[i];
      assert detected[..i + 1][..i] == detected[..i];
      PreparedSpec(db.subscriptions, db.categories, userId, c, today, stamp);
      var prepared := Prepared(db.subscriptions, userId, c, today, stamp);
      if prepared.Some? {
        var r := CreateSubscription(db, prepared.value, userId, today);
        if r.Ok? {
          created := created + [r.value];
        }
      }
    }
    assert detected[..|detected|] == detected;
  }

  /** `create_subscriptions_from_emails` on the fetched emails. */
  method CreateSubscriptionsFromEmailData(db: Db, userId: int, emails: seq<EmailData>, today: Date, stamp: string)
    returns (created: seq<Subscription>)
    requires db.Valid() && ValidEmails(emails)
    modifies db
    ensures db.Valid()
    ensures var m := Materialized(old(db.subscriptions), old(db.categories), old(db.nextSubscriptionId),
                            userId, Values(Deduped(Detected(emails))), today, stamp);
      db.subscriptions == m.subs && db.nextSubscriptionId == m.nextId && created == m.created
    ensures db.categories == old(db.categories) && db.payments == old(db.payments)
    ensures db.notifications == old(db.notifications)
    ensures db.nextPaymentId == old(db.nextPaymentId)
    ensures db.nextNotificationId == old(db.nextNotificationId)
  {
    var unique := ParseSubscriptionEmails(emails);
    assert ValidDates(unique) by {
      var d := Detected(emails);
      DedupedEarliest(d);
      DetectedDates(emails);
      forall i | 0 <= i < |unique|
        ensures ValidDate(unique[i].billingDate)
      {
        var k := Deduped(d).keys[i];
        assert k in Deduped(d).table;
        var j :| 0 <= j < |d| && d[j] == Deduped(d).table[k] && BeatsEarlier(d, j);
      }
    }
    created := CreateSubscriptionsFromEmails(db, userId, unique, today, stamp);
  }

  /** Every detected candidate has a real billing date. */
  lemma {:induction false} DetectedDates(emails: seq<EmailData>)
    requires ValidEmails(emails)
    ensures ValidDates(Detected(emails))
    decreases |emails|
  {
    if emails != [] {
      var p := emails[..|emails| - 1];
      assert forall i :: 0 <= i < |p| ==> p[i] == emails[i];
      DetectedDates(p);
      CandidateSpec(emails[|emails| - 1]);
    }
  }
}
