/** The frontend text-generation service: the mock-mode rule, the canned
    mock classifier, and the extraction of the generated text from an
    inference reply, with every failure falling back to the mock. The
    environment and the reply are parameters. */
module Hf {
  import opened Wrappers
  import opened Strings
  import opened JsonModel

  /** The two build-time settings the service reads. */
  datatype Env = Env(useMockFlag: Option<string>, token: Option<string>)

  /** The token is configured: present and not empty. */
  predicate HasToken(env: Env)
  {
    env.token.Some? && env.token.value != ""
  }

  /** Mock mode: the flag is exactly "true", or there is no usable token. */
  predicate UseMock(env: Env)
  {
    env.useMockFlag == Some("true") || !HasToken(env)
  }

  // ---------------------------------------------------------- mock texts

  const SummaryMock: string :=
    "Driven software professional with 5+ years of experience in full-stack development, cloud technologies, and team leadership. Proven ability to design and implement scalable solutions that increase operational efficiency by 40%. Strong expertise in modern frameworks, agile methodologies, and cross-functional collaboration."

  const BulletMock: string :=
    "\U{2022} Led development of microservices architecture serving 100K+ daily users with 99.9% uptime\n\U{2022} Implemented CI/CD pipelines reducing deployment time by 60%\n\U{2022} Mentored team of 5 junior developers, improving code quality by 35%"

  const SkillMock: string :=
    "JavaScript: Advanced, Python: Advanced, React: Expert, AWS: Intermediate, Docker: Intermediate, Leadership: Advanced, Problem Solving: Expert"

  const DefaultMock: string :=
    "Dedicated professional with strong technical background and proven track record of delivering high-impact solutions. Experienced in collaborating with cross-functional teams to achieve business objectives and drive innovation."

  /** The four canned answers of the mock. */
  datatype MockKind = SummaryKind | BulletKind | SkillKind | GenericKind

  /** What the service answers: one of the canned texts, or a text taken
      from an inference reply. */
  datatype Answer = Canned(kind: MockKind) | Generated(text: string)

  /** The text of a canned answer. */
  function MockText(k: MockKind): string
  {
    match k
    case SummaryKind => SummaryMock
    case BulletKind => BulletMock
    case SkillKind => SkillMock
    case GenericKind => DefaultMock
  }

  /** The string the service resolves with. */
  function AnswerText(a: Answer): string
  {
    match a
    case Canned(k) => MockText(k)
    case Generated(t) => t
  }

  // -------------------------------------------------------- lower-casing

  /** `toLowerCase` on one character, as far as the classifier's needles can
      tell: ASCII capitals and the Kelvin sign (which lower-cases to 'k').
      Every other character either maps outside ASCII or is left alone. */
  function ToLowerChar(c: char): (r: char)
    ensures !('A' <= r <= 'Z')
    ensures 'a' <= c <= 'z' ==> r == c
  {
    if 'A' <= c <= 'Z' then ((c as int) + 32) as char
    else if c == '\U{212A}' then 'k'
    else c
  }

  function Lower(s: string): (r: string)
    ensures |r| == |s|
    ensures forall i :: 0 <= i < |s| ==> r[i] == ToLowerChar(s[i])
  {
    seq(|s|, i requires 0 <= i < |s| => ToLowerChar(s[i]))
  }

  /** Lower-casing twice is lower-casing once. */
  lemma LowerIdempotent(s: string)
    ensures Lower(Lower(s)) == Lower(s)
  {
    forall i | 0 <= i < |s|
      ensures Lower(Lower(s))[i] == Lower(s)[i]
    {
      var c := s[i];
      assert ToLowerChar(ToLowerChar(c)) == ToLowerChar(c);
    }
  }

  // ------------------------------------------------------------ the mock

  /** `generateMock`: the first needle found in the lower-cased prompt
      decides, "summary" before "bullet"/"point" before "skill"; otherwise
      the generic answer. The token budget plays no part. */
  function GenerateMock(prompt: string, maxTokens: int): MockKind
  {
    var p := Lower(prompt);
    if Contains(p, "summary") then SummaryKind
    else if Contains(p, "bullet") || Contains(p, "point") then BulletKind
    else if Contains(p, "skill") then SkillKind
    else GenericKind
  }

  /** Which canned answer comes back, as a decision on the needles alone:
      each answer is given exactly for its own needle with no earlier one. */
  lemma MockClassification(prompt: string, maxTokens: int)
    ensures var p := Lower(prompt);
      && (GenerateMock(prompt, maxTokens) == SummaryKind <==> Contains(p, "summary"))
      && (GenerateMock(prompt, maxTokens) == BulletKind <==>
            !Contains(p, "summary") && (Contains(p, "bullet") || Contains(p, "point")))
      && (GenerateMock(prompt, maxTokens) == SkillKind <==>
            !Contains(p, "summary") && !Contains(p, "bullet") && !Contains(p, "point") && Contains(p, "skill"))
      && (GenerateMock(prompt, maxTokens) == GenericKind <==>
            !Contains(p, "summary") && !Contains(p, "bullet") && !Contains(p, "point") && !Contains(p, "skill"))
  {
  }

  /** The classifier is case-insensitive and deterministic: prompts that
      lower-case alike get the same answer, whatever the token budgets. */
  lemma MockIgnoresCase(p: string, q: string, m: int, n: int)
    requires Lower(p) == Lower(q)
    ensures GenerateMock(p, m) == GenerateMock(q, n)
    ensures GenerateMock(Lower(p), m) == GenerateMock(p, n)
  {
    LowerIdempotent(p);
  }

  // ------------------------------------------------------- the live path

  /** The text a successful reply's decoded body yields, or None where the
      code throws: a `generated_text` that is not a string makes the
      logging call `text.substring(0, 50)` fail, and `String` throws on an
      object with its own `toString` key. An empty array yields the text of
      `undefined`. */
  function ExtractText(data: Json, numberText: real -> string): (r: Option<string>)
    ensures HasKey(data, "generated_text") ==>
              r == (if data.fields["generated_text"].JStr? then Some(data.fields["generated_text"].s) else None)
    ensures !data.JArr? && !HasKey(data, "generated_text") ==> r == JsString(data, numberText)
    ensures data.JArr? && |data.items| == 0 ==> r == Some("undefined")
    ensures data.JArr? && |data.items| > 0 && HasKey(data.items[0], "generated_text") ==>
              r == (if data.items[0].fields["generated_text"].JStr?
                    then Some(data.items[0].fields["generated_text"].s) else None)
    ensures data.JArr? && |data.items| > 0 && !HasKey(data.items[0], "generated_text") ==>
              r == JsString(data.items[0], numberText)
    ensures r.None? <==>
              && TextSource(data).Some?
              && (if HasKey(TextSource(data).value, "generated_text")
                  then !TextSource(data).value.fields["generated_text"].JStr?
                  else StringThrows(TextSource(data).value))
  {
    if data.JArr? then
      if |data.items| == 0 then Some("undefined")
      else
        var first := data.items[0];
        if HasKey(first, "generated_text") then
          var text := first.fields["generated_text"];
          if text.JStr? then Some(text.s) else None
        else JsString(first, numberText)
    else if HasKey(data, "generated_text") then
      var text := data.fields["generated_text"];
      if text.JStr? then Some(text.s) else None
    else JsString(data, numberText)
  }

  /** `response.ok`. */
  predicate Ok(status: int)
  {
    200 <= status <= 299
  }

  /** `generateTextHF`: never rejects. In mock mode it answers from the
      classifier without a request; otherwise a failed request, a status
      outside 200-299, a body that is not JSON or a text that cannot be
      extracted all fall back to the same mock answer. The "token not
      configured" throw sits behind the mock-mode test, which already covers
      a missing token, so it cannot be reached. */
  function GenerateTextHF(prompt: string, maxTokens: int, env: Env, reply: Reply,
                          numberText: real -> string): (r: Answer)
    ensures UseMock(env) ==> r == Canned(GenerateMock(prompt, maxTokens))
  {
    if UseMock(env) then Canned(GenerateMock(prompt, maxTokens))
    else if !HasToken(env) then assert false; Canned(GenericKind)
    else match reply
      case NoReply => Canned(GenerateMock(prompt, maxTokens))
      case Reply(status, _, body) =>
        if !Ok(status) || body.None? then Canned(GenerateMock(prompt, maxTokens))
        else match ExtractText(body.value, numberText)
          case None => Canned(GenerateMock(prompt, maxTokens))
          case Some(t) => Generated(t)
  }

  /** Where an answer can come from: either it is the mock answer for the
      prompt, or the reply was a 2xx JSON body and the answer is the text
      that body yields. */
  lemma AnswerProvenance(prompt: string, maxTokens: int, env: Env, reply: Reply, numberText: real -> string)
    ensures var r := GenerateTextHF(prompt, maxTokens, env, reply, numberText);
      && (r.Canned? ==> r.kind == GenerateMock(prompt, maxTokens))
      && (r.Generated? <==>
            !UseMock(env) && reply.Reply? && Ok(reply.status) && reply.body.Some?
            && ExtractText(reply.body.value, numberText).Some?)
      && (r.Generated? ==> ExtractText(reply.body.value, numberText) == Some(r.text))
  {
  }

  /** Failures never surface: a missing reply, a non-2xx status or an
      undecodable body gives exactly the mock answer. */
  lemma FailuresGiveMock(prompt: string, maxTokens: int, env: Env, reply: Reply, numberText: real -> string)
    requires reply.NoReply? || !Ok(reply.status) || reply.body.None?
    ensures GenerateTextHF(prompt, maxTokens, env, reply, numberText) == Canned(GenerateMock(prompt, maxTokens))
  {
  }

  /** A body whose object carries its own `toString` key cannot be turned
      into text, so the service answers from the mock even though the
      request succeeded. */
  lemma OwnToStringGivesMock(prompt: string, maxTokens: int, env: Env, v: Json, numberText: real -> string)
    requires !UseMock(env)
    ensures var body := JObj(map["toString" := v]);
      GenerateTextHF(prompt, maxTokens, env, Reply(200, "", Some(body)), numberText)
      == Canned(GenerateMock(prompt, maxTokens))
  {
    var body := JObj(map["toString" := v]);
    assert !HasKey(body, "generated_text") && StringThrows(body);
  }
}
