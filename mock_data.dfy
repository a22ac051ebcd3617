/** The report fixture of lib/mock-data.ts: four influence chains of one
    politician, where the third and fourth chains share a policy text. */
module MockData {
  import opened Text
  import opened GraphTypes
  import opened AnalysisContent
  import opened BuilderProperties

  const Chain0 := InfluenceChain(
    "이재명", "재생에너지 정책", "에너지/철강", ["KEPCO", "POSCO"],
    "이재명 배우자가 KEPCO와 POSCO 주식을 보유하고 있어 에너지 및 철강 부문과 간접적인 재정적 연결고리를 나타냅니다.",
    [Evidence("이재명 2023 재산공개 보고서", "https://www.ethics.go.kr/disclosure/2023/lee_jae_myung.pdf")])

  const Chain1 := InfluenceChain(
    "이재명", "바이오테크 R&D 보조금", "바이오제약", ["Celltrion Healthcare"],
    "이재명의 캠페인은 셀트리온과 연결된 로비스트와 간접적인 관계가 있으며, R&D 보조금 옹호 이후 바이오테크 주식 급등과 시기가 일치합니다.",
    [Evidence("뉴스타파: 이재명의 바이오제약 관계", "https://www.newstapa.org/article/lee-celltrion")])

  const Chain2 := InfluenceChain(
    "이재명", "지역 개발 프로젝트", "건설", ["동신건설"],
    "이재명의 지역 개발 정책은 건설 회사인 동신건설의 주가 상승과 연결되어 있습니다.",
    [Evidence("이재명 관련주, 이재명 테마주 한 장으로 알아보기", "https://jjeongddol.tistory.com/54")])

  const Chain3 := InfluenceChain(
    "이재명", "지역 개발 프로젝트", "건설/컨설팅", ["SK Group"],
    "이재명의 전 보좌관이 경기도 프로젝트에 대해 SK그룹에 자문하는 컨설팅 회사를 설립했습니다.",
    [Evidence("KBS 특별 보고서: PolicyLink와 SK그룹", "https://news.kbs.co.kr/politics/policylink_2023")])

  /** `mockAnalysisData.influence_chains`. */
  const MockChains: seq<InfluenceChain> := [Chain0, Chain1, Chain2, Chain3]

  /** The expected id and link sets of any four chains, one chain at a time. */
  lemma FourPoliticians(cs: seq<InfluenceChain>)
    requires |cs| == 4
    ensures PoliticianIds(cs) == {PoliticianId(cs[0].politician), PoliticianId(cs[1].politician),
                                  PoliticianId(cs[2].politician), PoliticianId(cs[3].politician)}
  {
    var c3, c2, c1 := cs[..3], cs[..2], cs[..1];
    assert c3[..2] == c2 && c2[..1] == c1 && c1[..0] == [];
    var p0, p1, p2, p3 := PoliticianId(cs[0].politician), PoliticianId(cs[1].politician),
                          PoliticianId(cs[2].politician), PoliticianId(cs[3].politician);
    assert PoliticianIds(c1) == {p0};
    assert PoliticianIds(c2) == {p0, p1};
    assert PoliticianIds(c3) == {p0, p1, p2};
  }

  lemma FourSectors(cs: seq<InfluenceChain>)
    requires |cs| == 4
    ensures SectorIds(cs) == {SectorId(cs[0].industryOrSector), SectorId(cs[1].industryOrSector),
                              SectorId(cs[2].industryOrSector), SectorId(cs[3].industryOrSector)}
  {
    var c3, c2, c1 := cs[..3], cs[..2], cs[..1];
    assert c3[..2] == c2 && c2[..1] == c1 && c1[..0] == [];
    var s0, s1, s2 := SectorId(cs[0].industryOrSector), SectorId(cs[1].industryOrSector), SectorId(cs[2].industryOrSector);
    assert SectorIds(c1) == {s0};
    assert SectorIds(c2) == {s0, s1};
    assert SectorIds(c3) == {s0, s1, s2};
  }

  lemma FourCompanySets(cs: seq<InfluenceChain>)
    requires |cs| == 4
    ensures CompanyIds(cs) == CompanyIdsOf(cs[0].companies) + CompanyIdsOf(cs[1].companies)
                              + CompanyIdsOf(cs[2].companies) + CompanyIdsOf(cs[3].companies)
  {
    var c3, c2, c1 := cs[..3], cs[..2], cs[..1];
    assert c3[..2] == c2 && c2[..1] == c1 && c1[..0] == [];
    var a0, a1, a2 := CompanyIdsOf(cs[0].companies), CompanyIdsOf(cs[1].companies), CompanyIdsOf(cs[2].companies);
    assert CompanyIds(c1) == a0;
    assert CompanyIds(c2) == a0 + a1;
    assert CompanyIds(c3) == a0 + a1 + a2;
  }

  lemma FourCompanyLinks(cs: seq<InfluenceChain>)
    requires |cs| == 4
    ensures SectorCompanyLinks(cs)
         == CompanyLinksOf(SectorId(cs[0].industryOrSector), cs[0].companies)
            + CompanyLinksOf(SectorId(cs[1].industryOrSector), cs[1].companies)
            + CompanyLinksOf(SectorId(cs[2].industryOrSector), cs[2].companies)
            + CompanyLinksOf(SectorId(cs[3].industryOrSector), cs[3].companies)
  {
    var c3, c2, c1 := cs[..3], cs[..2], cs[..1];
    assert c3[..2] == c2 && c2[..1] == c1 && c1[..0] == [];
    var l0 := CompanyLinksOf(SectorId(cs[0].industryOrSector), cs[0].companies);
    var l1 := CompanyLinksOf(SectorId(cs[1].industryOrSector), cs[1].companies);
    var l2 := CompanyLinksOf(SectorId(cs[2].industryOrSector), cs[2].companies);
    assert SectorCompanyLinks(c1) == l0;
    assert SectorCompanyLinks(c2) == l0 + l1;
    assert SectorCompanyLinks(c3) == l0 + l1 + l2;
  }

  /** The id and link sets of one and of two companies. */
  lemma OneCompany(sectorId: string, companies: seq<string>)
    requires |companies| == 1
    ensures CompanyIdsOf(companies) == {CompanyId(companies[0])}
    ensures CompanyLinksOf(sectorId, companies) == {Link(sectorId, CompanyId(companies[0]))}
  {
    assert companies[..0] == [];
  }

  lemma TwoCompanies(sectorId: string, companies: seq<string>)
    requires |companies| == 2
    ensures CompanyIdsOf(companies) == {CompanyId(companies[0]), CompanyId(companies[1])}
    ensures CompanyLinksOf(sectorId, companies)
         == {Link(sectorId, CompanyId(companies[0])), Link(sectorId, CompanyId(companies[1]))}
  {
    var front := companies[..1];
    assert front[..0] == [] && front[0] == companies[0];
    OneCompany(sectorId, front);
  }

  /** A company id shows the first character of the name, lower-cased. */
  lemma CompanyIdHead(name: string)
    requires |name| > 0 && !IsSpace(name[0])
    ensures CompanyId(name)[5] == LowerChar(name[0])
  {
    NormalizeHead(name);
  }

  /** A sector id of a plain name is the prefix followed by the name. */
  lemma SectorIdOfPlain(name: string)
    requires NoSpace(name) && forall i :: 0 <= i < |name| ==> LowerChar(name[i]) == name[i]
    ensures SectorId(name) == "sector-" + name
  {
    NormalizeOfPlain(name);
  }

  /** All four chains name the same politician. */
  lemma FixturePoliticianCount()
    ensures |PoliticianIds(MockChains)| == 1
  {
    FourPoliticians(MockChains);
    var p := PoliticianId(Chain0.politician);
    assert PoliticianIds(MockChains) == {p};
  }

  // The fixture's sector names hold no whitespace and no capitals, so each
  // is its own id suffix; one lemma per name keeps each proof small.

  lemma SectorId0()
    ensures SectorId(Chain0.industryOrSector) == "sector-에너지/철강"
  {
    SectorIdOfPlain(Chain0.industryOrSector);
  }

  lemma SectorId1()
    ensures SectorId(Chain1.industryOrSector) == "sector-바이오제약"
  {
    SectorIdOfPlain(Chain1.industryOrSector);
  }

  lemma SectorId2()
    ensures SectorId(Chain2.industryOrSector) == "sector-건설"
  {
    SectorIdOfPlain(Chain2.industryOrSector);
  }

  lemma SectorId3()
    ensures SectorId(Chain3.industryOrSector) == "sector-건설/컨설팅"
  {
    SectorIdOfPlain(Chain3.industryOrSector);
  }

  lemma FourDistinct<T>(a: T, b: T, c: T, d: T)
    requires a != b && a != c && a != d && b != c && b != d && c != d
    ensures |{a, b, c, d}| == 4
  {
  }

  lemma FiveDistinct<T>(a: T, b: T, c: T, d: T, e: T)
    requires a != b && a != c && a != d && a != e && b != c && b != d && b != e
    requires c != d && c != e && d != e
    ensures |{a, b, c, d, e}| == 5
  {
  }

  /** The four sector ids are pairwise different. */
  lemma FixtureSectorsDistinct()
    ensures var s0, s1, s2, s3 := SectorId(Chain0.industryOrSector), SectorId(Chain1.industryOrSector),
                                  SectorId(Chain2.industryOrSector), SectorId(Chain3.industryOrSector);
            s0 != s1 && s0 != s2 && s0 != s3 && s1 != s2 && s1 != s3 && s2 != s3
  {
    SectorId0();
    SectorId1();
    SectorId2();
    SectorId3();
  }

  lemma FixtureSectorCount()
    ensures |SectorIds(MockChains)| == 4
  {
    var s0, s1, s2, s3 := SectorId(Chain0.industryOrSector), SectorId(Chain1.industryOrSector),
                          SectorId(Chain2.industryOrSector), SectorId(Chain3.industryOrSector);
    FourSectors(MockChains);
    FixtureSectorsDistinct();
    FourDistinct(s0, s1, s2, s3);
  }

  // Each fixture company id shows the first character of the company name,
  // lower-cased.

  lemma CompanyHead0()
    ensures CompanyId(Chain0.companies[0])[5] == 'k'
  {
    CompanyIdHead(Chain0.companies[0]);
  }

  lemma CompanyHead1()
    ensures CompanyId(Chain0.companies[1])[5] == 'p'
  {
    CompanyIdHead(Chain0.companies[1]);
  }

  lemma CompanyHead2()
    ensures CompanyId(Chain1.companies[0])[5] == 'c'
  {
    CompanyIdHead(Chain1.companies[0]);
  }

  lemma CompanyHead3()
    ensures CompanyId(Chain2.companies[0])[5] == '동'
  {
    CompanyIdHead(Chain2.companies[0]);
  }

  lemma CompanyHead4()
    ensures CompanyId(Chain3.companies[0])[5] == 's'
  {
    CompanyIdHead(Chain3.companies[0]);
  }

  /** The five company ids are pairwise different. */
  lemma FixtureCompaniesDistinct()
    ensures var i0, i1, i2, i3, i4 := CompanyId(Chain0.companies[0]), CompanyId(Chain0.companies[1]),
                                      CompanyId(Chain1.companies[0]), CompanyId(Chain2.companies[0]),
                                      CompanyId(Chain3.companies[0]);
            && i0 != i1 && i0 != i2 && i0 != i3 && i0 != i4 && i1 != i2 && i1 != i3 && i1 != i4
            && i2 != i3 && i2 != i4 && i3 != i4
  {
    CompanyHead0();
    CompanyHead1();
    CompanyHead2();
    CompanyHead3();
    CompanyHead4();
  }

  lemma Gather<T>(A: set<T>, B: set<T>, C: set<T>, D: set<T>, a0: T, a1: T, b: T, c: T, d: T)
    requires A == {a0, a1} && B == {b} && C == {c} && D == {d}
    ensures A + B + C + D == {a0, a1, b, c, d}
  {
  }

  /** The fixture's company ids, two from the first chain and one from each
      of the others. */
  lemma FixtureCompanySet()
    ensures CompanyIds(MockChains)
         == {CompanyId(Chain0.companies[0]), CompanyId(Chain0.companies[1]), CompanyId(Chain1.companies[0]),
             CompanyId(Chain2.companies[0]), CompanyId(Chain3.companies[0])}
  {
    var i0, i1, i2, i3, i4 := CompanyId(Chain0.companies[0]), CompanyId(Chain0.companies[1]),
                              CompanyId(Chain1.companies[0]), CompanyId(Chain2.companies[0]), CompanyId(Chain3.companies[0]);
    var a, b, c, d := CompanyIdsOf(Chain0.companies), CompanyIdsOf(Chain1.companies),
                      CompanyIdsOf(Chain2.companies), CompanyIdsOf(Chain3.companies);
    FourCompanySets(MockChains);
    TwoCompanies("", Chain0.companies);
    OneCompany("", Chain1.companies);
    OneCompany("", Chain2.companies);
    OneCompany("", Chain3.companies);
    Gather(a, b, c, d, i0, i1, i2, i3, i4);
  }

  /** The fixture's sector-to-company links. */
  lemma FixtureCompanyLinkSet()
    ensures var t0, t1, t2, t3 := SectorId(Chain0.industryOrSector), SectorId(Chain1.industryOrSector),
                                  SectorId(Chain2.industryOrSector), SectorId(Chain3.industryOrSector);
            SectorCompanyLinks(MockChains)
            == {Link(t0, CompanyId(Chain0.companies[0])), Link(t0, CompanyId(Chain0.companies[1])),
                Link(t1, CompanyId(Chain1.companies[0])), Link(t2, CompanyId(Chain2.companies[0])),
                Link(t3, CompanyId(Chain3.companies[0]))}
  {
    var i0, i1, i2, i3, i4 := CompanyId(Chain0.companies[0]), CompanyId(Chain0.companies[1]),
                              CompanyId(Chain1.companies[0]), CompanyId(Chain2.companies[0]), CompanyId(Chain3.companies[0]);
    var t0, t1, t2, t3 := SectorId(Chain0.industryOrSector), SectorId(Chain1.industryOrSector),
                          SectorId(Chain2.industryOrSector), SectorId(Chain3.industryOrSector);
    var a, b, c, d := CompanyLinksOf(t0, Chain0.companies), CompanyLinksOf(t1, Chain1.companies),
                      CompanyLinksOf(t2, Chain2.companies), CompanyLinksOf(t3, Chain3.companies);
    FourCompanyLinks(MockChains);
    TwoCompanies(t0, Chain0.companies);
    OneCompany(t1, Chain1.companies);
    OneCompany(t2, Chain2.companies);
    OneCompany(t3, Chain3.companies);
    Gather(a, b, c, d, Link(t0, i0), Link(t0, i1), Link(t1, i2), Link(t2, i3), Link(t3, i4));
  }

  /** Five company ids and five sector-to-company links. */
  lemma FixtureCompanyCount()
    ensures |CompanyIds(MockChains)| == 5
    ensures |SectorCompanyLinks(MockChains)| == 5
  {
    var i0, i1, i2, i3, i4 := CompanyId(Chain0.companies[0]), CompanyId(Chain0.companies[1]),
                              CompanyId(Chain1.companies[0]), CompanyId(Chain2.companies[0]), CompanyId(Chain3.companies[0]);
    var t0, t1, t2, t3 := SectorId(Chain0.industryOrSector), SectorId(Chain1.industryOrSector),
                          SectorId(Chain2.industryOrSector), SectorId(Chain3.industryOrSector);
    FixtureCompanySet();
    FixtureCompanyLinkSet();
    FixtureCompaniesDistinct();
    FiveDistinct(i0, i1, i2, i3, i4);
    FiveDistinct(Link(t0, i0), Link(t0, i1), Link(t1, i2), Link(t2, i3), Link(t3, i4));
  }

  /** The fixture yields 14 nodes (1 input, 4 policy, 4 sector, 5
      enterprise) and 13 links (4 input to policy, 4 policy to sector, 5
      sector to enterprise). The repeated policy text of chains 2 and 3 still
      gives two policy nodes. */
  lemma FixtureGraphShape()
    ensures |OfType(Build(MockChains).nodes, Input)| == 1
    ensures |OfType(Build(MockChains).nodes, Policy)| == 4
    ensures |OfType(Build(MockChains).nodes, Sector)| == 4
    ensures |OfType(Build(MockChains).nodes, Enterprise)| == 5
    ensures |Build(MockChains).nodes| == 14
    ensures |Build(MockChains).edges| == 13
  {
    BuildNodeCounts(MockChains);
    BuildLinkCount(MockChains);
    FixturePoliticianCount();
    FixtureSectorCount();
    FixtureCompanyCount();
  }
}
