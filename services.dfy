/** The `KNOWN_SERVICES` catalog and `extract_service_info` of
    backend/app/services/email_parser_service.py. */
module Services {
  import opened Common
  import opened Text
  import opened Store
  import opened Amounts

  /** One catalog entry: the sender and subject substrings that identify the
      service, its amount patterns in order, and its category id. */
  datatype Service = Service(
    name: string,
    senders: seq<string>,
    subjects: seq<string>,
    amounts: seq<AmountPattern>,
    categoryId: int)

  /** The amount patterns of the rupiah-billed entertainment and software services. */
  const RupiahPatterns: seq<AmountPattern> := [CurrencyAmount(true), CurrencyAmount(false), KeywordAmount("sejumlah")]

  /** The amount patterns of the services that may bill in dollars. */
  const DollarPatterns: seq<AmountPattern> := [CurrencyAmount(true), SymbolAmount("$"), SymbolAmount("us$")]

  /** The amount patterns of the telecom bills. */
  const BillPatterns: seq<AmountPattern> := [CurrencyAmount(true), CurrencyAmount(false), KeywordAmount("total")]

  const Netflix := Service("netflix", ["@netflix.com"],
    ["pembayaran netflix", "netflix billing", "netflix payment", "tagihan netflix"], RupiahPatterns, 1)
  const Spotify := Service("spotify", ["@spotify.com"],
    ["pembayaran spotify", "spotify premium", "tagihan spotify"], RupiahPatterns, 1)
  const Adobe := Service("adobe", ["@adobe.com"],
    ["adobe creative cloud", "adobe payment", "adobe billing", "tagihan adobe"], RupiahPatterns, 2)
  const GitHub := Service("github", ["@github.com"],
    ["github billing", "github payment", "tagihan github"], DollarPatterns, 2)
  const Domain := Service("domain", ["@namecheap.com", "@godaddy.com", "@name.com", "@domains.com"],
    ["domain renewal", "domain expiration", "domain registration", "perpanjangan domain"], DollarPatterns, 4)
  const Hosting := Service("hosting", ["@digitalocean.com", "@hostinger.com", "@cpanel.net", "@hostgator.com", "@namecheap.com"],
    ["hosting renewal", "vps renewal", "cloud server", "hosting invoice"], DollarPatterns, 4)
  const Mobile := Service("mobile", ["@telkomsel.com", "@xl.co.id", "@indosat.com", "@tri.co.id"],
    ["tagihan bulanan", "monthly bill", "tagihan selular", "mobile bill"], BillPatterns, 3)
  const Internet := Service("internet", ["@indihome.co.id", "@biznet.co.id", "@firstmedia.com", "@mncplay.id"],
    ["tagihan internet", "internet bill", "broadband bill", "fiber bill"], BillPatterns, 3)

  /** The catalog, in its insertion order. */
  const KnownServices: seq<Service> := [Netflix, Spotify, Adobe, GitHub, Domain, Hosting, Mobile, Internet]

  /** A service is hit when one of its sender patterns occurs in the sender or
      one of its subject patterns occurs in the subject. */
  predicate Hits(s: Service, sender: string, subject: string) {
    ContainsAny(sender, s.senders) || ContainsAny(subject, s.subjects)
  }

  /** The first catalog entry that is hit. */
  function FirstHit(catalog: seq<Service>, sender: string, subject: string): (r: Option<nat>)
    ensures r.Some? ==> r.value < |catalog| && Hits(catalog[r.value], sender, subject)
    ensures r.Some? ==> forall j :: 0 <= j < r.value ==> !Hits(catalog[j], sender, subject)
    ensures r.None? <==> forall j :: 0 <= j < |catalog| ==> !Hits(catalog[j], sender, subject)
  {
    var p := (s: Service) => Hits(s, sender, subject);
    var r := FirstIndex(catalog, p);
    assert r.Some? ==> forall j :: 0 <= j < r.value ==> !p(catalog[j]);
    assert r.None? <==> forall j :: 0 <= j < |catalog| ==> !p(catalog[j]);
    r
  }

  /** The `(service_name, category_id, amount)` triple. */
  datatype ServiceInfo = ServiceInfo(service: Option<string>, categoryId: Option<int>, amount: Option<real>)

  /** The triple for already cleaned sender, subject and body: the first entry
      of `catalog` hit, with its amount from the subject or else the body. */
  function InfoIn(catalog: seq<Service>, se: string, su: string, b: string): ServiceInfo {
    match FirstHit(catalog, se, su)
    case None => ServiceInfo(None, None, None)
    case Some(k) =>
      var s := catalog[k];
      var fromSubject := AmountIn(su, s.amounts);
      var amount := if fromSubject.Some? then fromSubject else AmountIn(b, s.amounts);
      ServiceInfo(Some(s.name), Some(s.categoryId), amount)
  }

  /** What `extract_service_info` returns for an email: sender, subject and
      body are cleaned first and the catalog is searched. */
  function ServiceInfoOf(sender: string, subject: string, body: string): ServiceInfo {
    InfoIn(KnownServices, CleanText(sender), CleanText(subject), CleanText(body))
  }

  /** No entry hit gives `(None, None, None)`. Otherwise the first entry hit
      names the service and its category, and its amount patterns are tried on
      the subject, and on the body only when the subject yields nothing. */
  lemma ServiceInfoSpec(sender: string, subject: string, body: string)
    ensures var r := ServiceInfoOf(sender, subject, body);
      var se := CleanText(sender);
      var su := CleanText(subject);
      && (r.service.None? <==> forall j :: 0 <= j < |KnownServices| ==> !Hits(KnownServices[j], se, su))
      && (r.service.None? ==> r == ServiceInfo(None, None, None))
      && (r.service.Some? ==>
            exists k :: 0 <= k < |KnownServices| && Hits(KnownServices[k], se, su)
                        && (forall j :: 0 <= j < k ==> !Hits(KnownServices[j], se, su))
                        && r.service == Some(KnownServices[k].name)
                        && r.categoryId == Some(KnownServices[k].categoryId)
                        && (AmountIn(su, KnownServices[k].amounts).Some? ==> r.amount == AmountIn(su, KnownServices[k].amounts))
                        && (AmountIn(su, KnownServices[k].amounts).None? ==>
                              r.amount == AmountIn(CleanText(body), KnownServices[k].amounts)))
  {
    var se := CleanText(sender);
    var su := CleanText(subject);
    var h := FirstHit(KnownServices, se, su);
    if h.Some? {
      var k := h.value;
      assert Hits(KnownServices[k], se, su);
    }
  }

  /** The catalog loop of `extract_service_info`, returning at the first entry hit. */
  method SearchCatalog(catalog: seq<Service>, se: string, su: string, b: string) returns (r: ServiceInfo)
    ensures r == InfoIn(catalog, se, su, b)
  {
    for k := 0 to |catalog|
      invariant forall j :: 0 <= j < k ==> !Hits(catalog[j], se, su)
    {
      var s := catalog[k];
      var senderMatch := ContainsAny(se, s.senders);
      var subjectMatch := ContainsAny(su, s.subjects);
      if senderMatch || subjectMatch {
        var amount := ExtractAmount(su, s.amounts);
        if amount.None? {
          amount := ExtractAmount(b, s.amounts);
        }
        assert FirstHit(catalog, se, su) == Some(k);
        return ServiceInfo(Some(s.name), Some(s.categoryId), amount);
      }
    }
    return ServiceInfo(None, None, None);
  }

  /** `extract_service_info(sender, subject, body)`. */
  method ExtractServiceInfo(sender: string, subject: string, body: string) returns (r: ServiceInfo)
    ensures r == ServiceInfoOf(sender, subject, body)
  {
    r := SearchCatalog(KnownServices, CleanText(sender), CleanText(subject), CleanText(body));
  }

  /** A namecheap sender is always recognised, and never as `hosting`: the
      `domain` entry, which lists the same sender, comes first. */
  lemma NamecheapIsNeverHosting(sender: string, subject: string, body: string)
    ensures Contains(CleanText(sender), "@namecheap.com") ==>
      ServiceInfoOf(sender, subject, body).service.Some?
      && ServiceInfoOf(sender, subject, body).service != Some("hosting")
  {
    var se := CleanText(sender);
    var su := CleanText(subject);
    if Contains(se, "@namecheap.com") {
      NamecheapHitsDomain(se, su);
      var k := FirstHit(KnownServices, se, su).value;
      EarlyNames(k);
      InfoInName(KnownServices, se, su, CleanText(body));
    }
  }

  lemma NamecheapHitsDomain(se: string, su: string)
    requires Contains(se, "@namecheap.com")
    ensures FirstHit(KnownServices, se, su).Some? && FirstHit(KnownServices, se, su).value <= 4
  {
    assert Contains(se, Domain.senders[0]);
    assert KnownServices[4] == Domain && Hits(Domain, se, su);
  }

  /** The service named is the first entry hit. */
  lemma InfoInName(catalog: seq<Service>, se: string, su: string, b: string)
    ensures FirstHit(catalog, se, su).None? ==> InfoIn(catalog, se, su, b).service.None?
    ensures FirstHit(catalog, se, su).Some? ==>
              InfoIn(catalog, se, su, b).service == Some(catalog[FirstHit(catalog, se, su).value].name)
  {
  }

  /** None of the first five entries is `hosting`. */
  lemma EarlyNames(k: nat)
    requires k <= 4
    ensures KnownServices[k].name != "hosting"
  {
    assert "hosting"[0] == 'h';
    assert Netflix.name[0] == 'n' && Spotify.name[0] == 's' && Adobe.name[0] == 'a';
    assert GitHub.name[0] == 'g' && Domain.name[0] == 'd';
  }

  /** A recognised email may still carry no amount. */
  lemma RecognisedWithoutAmount(sender: string)
    requires Contains(CleanText(sender), "@netflix.com")
    ensures ServiceInfoOf(sender, "", "") == ServiceInfo(Some("netflix"), Some(1), None)
  {
    CleanTextNormalised("");
    var se := CleanText(sender);
    assert Contains(se, Netflix.senders[0]);
    assert KnownServices[0] == Netflix && Hits(Netflix, se, "");
    assert FirstHit(KnownServices, se, "") == Some(0);
    assert forall p :: Captures("", p, 0) == [];
    AmountInNone("", RupiahPatterns);
  }

  /** A pattern list whose first pattern finds an amount yields that amount. */
  lemma FirstPatternWins(t: string, p: AmountPattern, rest: seq<AmountPattern>)
    requires AmountIn(t, [p]).Some?
    ensures AmountIn(t, [p] + rest) == AmountIn(t, [p])
  {
    assert ([p] + rest)[0] == p;
  }

  /** `extract_amount` with the rupiah patterns reads `rp 54.000` as 54, not 54000. */
  lemma RupiahExtractsDotAsDecimal()
    ensures AmountIn("rp 54.000", RupiahPatterns) == Some(54.0)
  {
    RupiahWithDot();
    FirstPatternWins("rp 54.000", CurrencyAmount(true), RupiahPatterns[1..]);
    assert RupiahPatterns == [CurrencyAmount(true)] + RupiahPatterns[1..];
  }

  /** `extract_amount` with the rupiah patterns reads `rp 1,500,000` as 1500000. */
  lemma RupiahExtractsThousands()
    ensures AmountIn("rp 1,500,000", RupiahPatterns) == Some(1500000.0)
  {
    RupiahWithCommas();
    FirstPatternWins("rp 1,500,000", CurrencyAmount(true), RupiahPatterns[1..]);
    assert RupiahPatterns == [CurrencyAmount(true)] + RupiahPatterns[1..];
  }
}
