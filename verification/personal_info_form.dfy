/** `handleChange` of the personal-information form: one field is set to the
    text of its input, the rest of the record is spread unchanged. */
module PersonalInfoForm {
  import opened Wrappers
  import opened Resume

  /** The keys of `PersonalInfo` the form edits. */
  datatype Field = FirstName | LastName | Email | Phone | Address | LinkedIn | Portfolio | Summary

  /** Reads one field; a required field is always present. */
  function Get(p: PersonalInfo, f: Field): Option<string>
  {
    match f
    case FirstName => Some(p.firstName)
    case LastName => Some(p.lastName)
    case Email => Some(p.email)
    case Phone => Some(p.phone)
    case Address => Some(p.address)
    case LinkedIn => p.linkedIn
    case Portfolio => p.portfolio
    case Summary => p.summary
  }

  /** Two records that agree on every field are the same record. */
  lemma FieldsDetermineRecord(p: PersonalInfo, q: PersonalInfo)
    requires forall f :: Get(p, f) == Get(q, f)
    ensures p == q
  {
    assert Get(p, FirstName) == Get(q, FirstName);
    assert Get(p, LastName) == Get(q, LastName);
    assert Get(p, Email) == Get(q, Email);
    assert Get(p, Phone) == Get(q, Phone);
    assert Get(p, Address) == Get(q, Address);
    assert Get(p, LinkedIn) == Get(q, LinkedIn);
    assert Get(p, Portfolio) == Get(q, Portfolio);
    assert Get(p, Summary) == Get(q, Summary);
  }

  /** `{ ...data, [field]: value }`. An optional field receives the string,
      even the empty one; it is never removed. */
  function HandleChange(p: PersonalInfo, f: Field, v: string): (r: PersonalInfo)
    ensures Get(r, f) == Some(v)
    ensures forall g :: g != f ==> Get(r, g) == Get(p, g)
  {
    match f
    case FirstName => p.(firstName := v)
    case LastName => p.(lastName := v)
    case Email => p.(email := v)
    case Phone => p.(phone := v)
    case Address => p.(address := v)
    case LinkedIn => p.(linkedIn := Some(v))
    case Portfolio => p.(portfolio := Some(v))
    case Summary => p.(summary := Some(v))
  }

  /** Applying the same change twice is applying it once; changing a field to
      the value it already holds changes nothing. */
  lemma HandleChangeIdempotent(p: PersonalInfo, f: Field, v: string)
    ensures HandleChange(HandleChange(p, f, v), f, v) == HandleChange(p, f, v)
    ensures Get(p, f) == Some(v) ==> HandleChange(p, f, v) == p
  {
    var once := HandleChange(p, f, v);
    FieldsDetermineRecord(HandleChange(once, f, v), once);
    if Get(p, f) == Some(v) {
      FieldsDetermineRecord(once, p);
    }
  }

  /** Changes to two different fields commute. */
  lemma HandleChangeCommutes(p: PersonalInfo, f: Field, v: string, g: Field, w: string)
    requires f != g
    ensures HandleChange(HandleChange(p, f, v), g, w) == HandleChange(HandleChange(p, g, w), f, v)
  {
    FieldsDetermineRecord(HandleChange(HandleChange(p, f, v), g, w), HandleChange(HandleChange(p, g, w), f, v));
  }
}
