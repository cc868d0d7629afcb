/** The four conflict predicates of the matching rules: interval overlap,
    skill, certification and weather compatibility. Dates are day numbers. */
module ConflictEngine {
  import opened Text

  function Max(a: int, b: int): int {
    if a < b then b else a
  }

  function Min(a: int, b: int): int {
    if a < b then a else b
  }

  /** `date_overlap`: the inclusive intervals [start1, end1] and [start2, end2]
      overlap. For non-empty intervals that is: the later start is no later
      than the earlier end. */
  predicate DateOverlap(start1: int, end1: int, start2: int, end2: int): (r: bool)
    ensures start1 <= end1 && start2 <= end2 ==> (r <==> Max(start1, start2) <= Min(end1, end2))
  {
    start1 <= end2 && start2 <= end1
  }

  lemma DateOverlapSymmetric(start1: int, end1: int, start2: int, end2: int)
    ensures DateOverlap(start1, end1, start2, end2) == DateOverlap(start2, end2, start1, end1)
  {
  }

  /** A non-empty interval overlaps itself; one that ends before the other
      starts does not overlap it. */
  lemma DateOverlapBounds(start1: int, end1: int, start2: int, end2: int)
    ensures start1 <= end1 ==> DateOverlap(start1, end1, start1, end1)
    ensures end1 < start2 ==> !DateOverlap(start1, end1, start2, end2)
  {
  }

  /** Day `d` lies in the inclusive interval [start, end]. */
  predicate Within(d: int, start: int, end: int) {
    start <= d <= end
  }

  /** For two non-empty intervals, overlapping means sharing a day. */
  lemma DateOverlapSharesDay(start1: int, end1: int, start2: int, end2: int)
    requires start1 <= end1 && start2 <= end2
    ensures DateOverlap(start1, end1, start2, end2)
            <==> exists d :: Within(d, start1, end1) && Within(d, start2, end2)
  {
    if DateOverlap(start1, end1, start2, end2) {
      var d := if start1 < start2 then start2 else start1;
      assert Within(d, start1, end1) && Within(d, start2, end2);
    }
  }

  /** `skill_mismatch`: the required skill, lower-cased, is not a substring of
      the pilot's lower-cased skill list. */
  predicate SkillMismatch(pilotSkills: string, requiredSkill: string): (r: bool)
    ensures requiredSkill == "" ==> !r
    ensures |requiredSkill| > |pilotSkills| ==> r
  {
    ContainsEmpty(Lower(pilotSkills));
    !ContainsIgnoringCase(pilotSkills, requiredSkill)
  }

  /** An empty required skill is found in every skill list. */
  lemma EmptySkillNeverMismatches(pilotSkills: string)
    ensures !SkillMismatch(pilotSkills, "")
  {
    ContainsEmpty(Lower(pilotSkills));
  }

  /** The skill test does not depend on how either side is capitalised. */
  lemma SkillMismatchIgnoresCase(pilotSkills: string, requiredSkill: string)
    ensures SkillMismatch(Upper(pilotSkills), requiredSkill) == SkillMismatch(pilotSkills, requiredSkill)
    ensures SkillMismatch(Lower(pilotSkills), requiredSkill) == SkillMismatch(pilotSkills, requiredSkill)
    ensures SkillMismatch(pilotSkills, Upper(requiredSkill)) == SkillMismatch(pilotSkills, requiredSkill)
    ensures SkillMismatch(pilotSkills, Lower(requiredSkill)) == SkillMismatch(pilotSkills, requiredSkill)
  {
    LowerForgetsCase(pilotSkills);
    LowerForgetsCase(requiredSkill);
  }

  /** A skill written anywhere inside the skill list, in any spelling that
      lower-cases to the same text, matches. */
  lemma ListedSkillMatches(before: string, written: string, after: string, skill: string)
    requires Lower(written) == Lower(skill)
    ensures !SkillMismatch(before + written + after, skill)
  {
    LowerAppend(before + written, after);
    LowerAppend(before, written);
    ContainsInfix(Lower(before), Lower(skill), Lower(after));
  }

  /** The comma-separated tags of a certification list, each stripped of
      surrounding white space: `[c.strip() for c in s.split(",")]`. */
  function Tokens(s: string): seq<string>
  {
    StripAll(Split(s, ','))
  }

  function StripAll(parts: seq<string>): seq<string>
  {
    seq(|parts|, k requires 0 <= k < |parts| => Strip(parts[k]))
  }

  /** `certification_mismatch`: some required tag is missing, verbatim, from
      the pilot's tags. */
  predicate CertificationMismatch(pilotCerts: string, requiredCerts: string): (r: bool)
    ensures r <==> exists k :: 0 <= k < |Tokens(requiredCerts)| && Tokens(requiredCerts)[k] !in Tokens(pilotCerts)
  {
    !(forall cert :: cert in Tokens(requiredCerts) ==> cert in Tokens(pilotCerts))
  }

  /** Some field of `pilotFields`, stripped, equals `field` stripped. */
  ghost predicate Covered(pilotFields: seq<string>, field: string) {
    exists j :: 0 <= j < |pilotFields| && Strip(pilotFields[j]) == Strip(field)
  }

  /** Spelled out on the raw lists: no mismatch exactly when each required
      field, stripped, equals some stripped field of the pilot's list. */
  lemma CertificationMismatchMeaning(pilotCerts: string, requiredCerts: string)
    ensures !CertificationMismatch(pilotCerts, requiredCerts) ==>
            forall k :: 0 <= k < |Split(requiredCerts, ',')| ==>
              Covered(Split(pilotCerts, ','), Split(requiredCerts, ',')[k])
    ensures (forall k :: 0 <= k < |Split(requiredCerts, ',')| ==>
              Covered(Split(pilotCerts, ','), Split(requiredCerts, ',')[k])) ==> !CertificationMismatch(pilotCerts, requiredCerts)
  {
    var pilotFields, requiredFields := Split(pilotCerts, ','), Split(requiredCerts, ',');
    var req, pil := Tokens(requiredCerts), Tokens(pilotCerts);
    assert req == StripAll(requiredFields) && pil == StripAll(pilotFields);
    if !CertificationMismatch(pilotCerts, requiredCerts) {
      forall k | 0 <= k < |requiredFields|
        ensures Covered(pilotFields, requiredFields[k])
      {
        assert req[k] in req;
        CoveredField(pilotFields, requiredFields, k);
      }
    } else {
      var cert :| cert in req && cert !in pil;
      var k :| 0 <= k < |req| && req[k] == cert;
      CoveredField(pilotFields, requiredFields, k);
      assert k < |requiredFields| && !Covered(pilotFields, requiredFields[k]);
    }
  }

  lemma CoveredField(pilotFields: seq<string>, requiredFields: seq<string>, k: int)
    requires 0 <= k < |requiredFields|
    ensures Covered(pilotFields, requiredFields[k]) <==> StripAll(requiredFields)[k] in StripAll(pilotFields)
  {
    var req, pil := StripAll(requiredFields), StripAll(pilotFields);
    if Covered(pilotFields, requiredFields[k]) {
      var j :| 0 <= j < |pilotFields| && Strip(pilotFields[j]) == Strip(requiredFields[k]);
      assert pil[j] == req[k];
    }
    if req[k] in pil {
      var j :| 0 <= j < |pil| && pil[j] == req[k];
      assert Strip(pilotFields[j]) == Strip(requiredFields[k]);
    }
  }

  /** Every list covers itself. */
  lemma CertificationReflexive(certs: string)
    ensures !CertificationMismatch(certs, certs)
  {
  }

  /** Appending more tags to the pilot's list never creates a mismatch. */
  lemma CertificationMonotone(pilotCerts: string, extra: string, requiredCerts: string)
    requires !CertificationMismatch(pilotCerts, requiredCerts)
    ensures !CertificationMismatch(pilotCerts + "," + extra, requiredCerts)
    ensures !CertificationMismatch(extra + "," + pilotCerts, requiredCerts)
  {
    TokensAround(pilotCerts, extra);
    TokensAround(extra, pilotCerts);
  }

  lemma TokensAround(a: string, b: string)
    ensures Tokens(a + "," + b) == Tokens(a) + Tokens(b)
  {
    SplitAround(a, ',', b);
    assert a + "," + b == a + [','] + b;
    StripAllAppend(Split(a, ','), Split(b, ','));
  }

  lemma StripAllAppend(xs: seq<string>, ys: seq<string>)
    ensures StripAll(xs + ys) == StripAll(xs) + StripAll(ys)
  {
    assert forall k :: 0 <= k < |xs + ys| ==> StripAll(xs + ys)[k] == (StripAll(xs) + StripAll(ys))[k];
  }

  /** An empty requirement is one empty tag, not "nothing required": it is met
      only by a pilot list that has an empty field itself. */
  lemma EmptyRequirement(pilotCerts: string)
    ensures CertificationMismatch(pilotCerts, "") <==> "" !in Tokens(pilotCerts)
  {
    assert Split("", ',') == [""];
    assert Strip("") == "";
    assert Tokens("") == [""];
  }

  /** So a pilot holding one non-blank certificate, such as "DGCA", fails a
      mission that lists none. */
  lemma EmptyRequirementRejectsSingleCertificate(pilotCerts: string)
    requires ',' !in pilotCerts && Strip(pilotCerts) != ""
    ensures CertificationMismatch(pilotCerts, "")
  {
    EmptyRequirement(pilotCerts);
    SplitWithoutSeparator(pilotCerts, ',');
    assert Tokens(pilotCerts) == [Strip(pilotCerts)];
  }

  /** A requirement without commas is one tag, compared after stripping. */
  lemma SingleRequirement(pilotCerts: string, cert: string)
    requires ',' !in cert
    ensures CertificationMismatch(pilotCerts, cert) <==> Strip(cert) !in Tokens(pilotCerts)
  {
    SplitWithoutSeparator(cert, ',');
    assert Tokens(cert) == [Strip(cert)];
  }

  /** `weather_conflict`: rain needs a rating that mentions "IP43". */
  predicate WeatherConflict(weatherResistance: string, forecast: string): (r: bool)
    ensures r <==> forecast == "Rainy" && forall i :: !OccursAt(weatherResistance, "IP43", i)
  {
    forecast == "Rainy" && !Contains(weatherResistance, "IP43")
  }

  /** Only the exact forecast "Rainy" can conflict; under rain the conflict is
      exactly the absence of "IP43" from the rating. */
  lemma WeatherConflictCases(weatherResistance: string, forecast: string)
    ensures forecast != "Rainy" ==> !WeatherConflict(weatherResistance, forecast)
    ensures WeatherConflict(weatherResistance, "Rainy") <==> !Contains(weatherResistance, "IP43")
  {
  }

  /** A rating that mentions "IP43" anywhere is safe in every forecast, and a
      rating too short to hold it conflicts with rain. */
  lemma WeatherRatings(before: string, after: string, forecast: string, short: string)
    requires |short| < 4
    ensures !WeatherConflict(before + "IP43" + after, forecast)
    ensures WeatherConflict(short, "Rainy")
  {
    ContainsInfix(before, "IP43", after);
  }
}
