/** The Classic template as an outline. It renders only its header: the name,
    then email, phone and address when non-empty. Its content area is empty. */
module ClassicTemplate {
  import opened Resume
  import opened Outline

  /** Email, phone and address, each only when non-empty. */
  function Contacts(p: PersonalInfo): (r: seq<string>)
    ensures |r| == Flag(p.email != "") + Flag(p.phone != "") + Flag(p.address != "")
    ensures forall x :: x in r <==>
              || (p.email != "" && x == p.email)
              || (p.phone != "" && x == p.phone)
              || (p.address != "" && x == p.address)
    ensures p.email != "" ==> r[0] == p.email
    ensures p.address != "" ==> r[|r| - 1] == p.address
  {
    LineIf(p.email != "", p.email) + LineIf(p.phone != "", p.phone) + LineIf(p.address != "", p.address)
  }

  /** The rendered outline: one header section and nothing else. */
  function Render(d: ResumeData): (o: seq<Section>)
    ensures |o| == 1 && o[0].area == Header && o[0].heading == NameBlock && |o[0].lines| >= 1
    ensures o[0].lines[0] == d.personalInfo.firstName + " " + d.personalInfo.lastName
    ensures forall h :: HasSection(o, h) <==> h == NameBlock
  {
    var s := Section(Header, NameBlock, [d.personalInfo.firstName + " " + d.personalInfo.lastName]
                                        + Contacts(d.personalInfo));
    assert forall h :: HasSection([s], h) <==> h == NameBlock by {
      forall h { HasSectionSingle(s, h); }
    }
    [s]
  }

  /** The outline depends on the name, email, phone and address only: lists,
      LinkedIn, portfolio and summary never show. */
  lemma HeaderOnly(d1: ResumeData, d2: ResumeData)
    requires d1.personalInfo.firstName == d2.personalInfo.firstName
    requires d1.personalInfo.lastName == d2.personalInfo.lastName
    requires d1.personalInfo.email == d2.personalInfo.email
    requires d1.personalInfo.phone == d2.personalInfo.phone
    requires d1.personalInfo.address == d2.personalInfo.address
    ensures Render(d1) == Render(d2)
  {
  }
}
