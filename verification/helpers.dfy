/** The pure utilities of `src/utils/helpers.py`. */
module Helpers {
  import opened Text
  import opened PyValue

  // ---------------------------------------------------------------------------
  // sanitize_input

  /** The patterns `sanitize_input` deletes, in the order it deletes them. */
  const DangerousPatterns: seq<string> := [";", "&&", "||", "|", ">", "<", "$(", "`", "\n", "\r"]

  /** The single characters among the dangerous patterns. */
  const DangerousChars: seq<char> := [';', '|', '>', '<', '`', '\n', '\r']

  predicate NonEmptyPatterns(pats: seq<string>) {
    forall i | 0 <= i < |pats| :: |pats[i]| > 0
  }

  /** One `replace(pattern, "")` per pattern, left to right. */
  function RemovePatterns(s: string, pats: seq<string>): string
    requires NonEmptyPatterns(pats)
    decreases |pats|
  {
    if |pats| == 0 then s else RemovePatterns(RemoveAll(s, pats[0]), pats[1..])
  }

  lemma {:induction false} RemovePatternsSub(s: string, pats: seq<string>)
    requires NonEmptyPatterns(pats)
    ensures IsSubsequence(RemovePatterns(s, pats), s)
    decreases |pats|
  {
    if |pats| == 0 {
      SubsequenceRefl(s);
    } else {
      var t := RemoveAll(s, pats[0]);
      RemoveAllSub(s, pats[0]);
      RemovePatternsSub(t, pats[1..]);
      SubsequenceTrans(RemovePatterns(t, pats[1..]), t, s);
    }
  }

  /** A single-character pattern leaves no occurrence of its character. */
  lemma {:induction false} RemovePatternsNoChar(s: string, pats: seq<string>, c: char)
    requires NonEmptyPatterns(pats)
    requires [c] in pats
    ensures c !in RemovePatterns(s, pats)
    decreases |pats|
  {
    var t := RemoveAll(s, pats[0]);
    if pats[0] == [c] {
      RemoveAllNoChar(s, c);
      RemovePatternsSub(t, pats[1..]);
      SubsequenceChars(RemovePatterns(t, pats[1..]), t);
    } else {
      RemovePatternsNoChar(t, pats[1..], c);
    }
  }

  lemma DangerousPatternsFacts()
    ensures NonEmptyPatterns(DangerousPatterns)
    ensures forall c | c in DangerousChars :: [c] in DangerousPatterns
  {
    assert DangerousPatterns[0] == [';'];
    assert DangerousPatterns[3] == ['|'];
    assert DangerousPatterns[4] == ['>'];
    assert DangerousPatterns[5] == ['<'];
    assert DangerousPatterns[7] == ['`'];
    assert DangerousPatterns[8] == ['\n'];
    assert DangerousPatterns[9] == ['\r'];
  }

  /** What one deletion pass followed by `strip()` guarantees, for any
      list of non-empty patterns. */
  lemma {:induction false} PassThenStrip(s: string, pats: seq<string>, chars: seq<char>)
    requires NonEmptyPatterns(pats)
    requires forall c | c in chars :: [c] in pats
    ensures var r := Strip(RemovePatterns(s, pats));
      && (forall c | c in chars :: c !in r)
      && IsSubsequence(r, s)
      && |r| <= |s|
  {
    var t := RemovePatterns(s, pats);
    var r := Strip(t);
    RemovePatternsSub(s, pats);
    SliceSub(t, LeadCount(t), LeadCount(t) + |r|);
    SubsequenceTrans(r, t, s);
    SubsequenceLength(r, s);
    SubsequenceChars(r, t);
    forall c | c in chars
      ensures c !in r
    {
      RemovePatternsNoChar(s, pats, c);
    }
  }

  /** `sanitize_input(user_input)` for a string argument. */
  function SanitizeInput(userInput: string): (r: string)
    ensures forall c | c in DangerousChars :: c !in r
    ensures IsSubsequence(r, userInput)
    ensures |r| <= |userInput|
    ensures |r| > 0 ==> !IsSpace(r[0]) && !IsSpace(r[|r| - 1])
  {
    DangerousPatternsFacts();
    var t := RemovePatterns(userInput, DangerousPatterns);
    PassThenStrip(userInput, DangerousPatterns, DangerousChars);
    Strip(t)
  }

  /** Each pattern's deletion on the way from `"&|&"` to `"&&"`. */
  lemma AmpPipeDeletions()
    ensures RemoveAll("&|&", ";") == "&|&" && RemoveAll("&|&", "&&") == "&|&"
    ensures RemoveAll("&|&", "||") == "&|&" && RemoveAll("&|&", "|") == "&&"
    ensures RemoveAll("&&", ">") == "&&" && RemoveAll("&&", "<") == "&&"
    ensures RemoveAll("&&", "$(") == "&&" && RemoveAll("&&", "`") == "&&"
    ensures RemoveAll("&&", "\n") == "&&" && RemoveAll("&&", "\r") == "&&"
  {
    assert RemoveAll("&|&", ";") == "&|&";
    assert RemoveAll("&|&", "&&") == "&|&";
    assert RemoveAll("&|&", "||") == "&|&";
    assert RemoveAll("&|&", "|") == "&&";
    assert RemoveAll("&&", ">") == "&&";
    assert RemoveAll("&&", "<") == "&&";
    assert RemoveAll("&&", "$(") == "&&";
    assert RemoveAll("&&", "`") == "&&";
    assert RemoveAll("&&", "\n") == "&&";
    assert RemoveAll("&&", "\r") == "&&";
  }

  /** The deletion pass turns `"&|&"` into `"&&"`. */
  lemma AmpPipePass()
    ensures RemovePatterns("&|&", DangerousPatterns) == "&&"
  {
    AmpPipeDeletions();
    DangerousPatternsFacts();
  }

  /** Deleting one pattern can join its neighbours into another pattern:
      `"&|&"` loses its `|` and becomes `"&&"`. */
  lemma SanitizeReformsPattern()
    ensures SanitizeInput("&|&") == "&&"
    ensures Contains(SanitizeInput("&|&"), "&&")
  {
    AmpPipePass();
    assert "&&"[0] == '&' && "&&"[1] == '&';
    StripUnspaced("&&");
    assert OccursAt("&&", "&&", 0);
  }

  /** A pass that deletes nothing leaves a string free of every pattern. */
  lemma {:induction false} FixpointHasNoPattern(s: string, pats: seq<string>)
    requires NonEmptyPatterns(pats)
    requires RemovePatterns(s, pats) == s
    ensures forall i | 0 <= i < |pats| :: !Contains(s, pats[i])
    decreases |pats|
  {
    if |pats| > 0 {
      var t := RemoveAll(s, pats[0]);
      RemoveAllSub(s, pats[0]);
      RemovePatternsSub(t, pats[1..]);
      SubsequenceLength(RemovePatterns(t, pats[1..]), t);
      SubsequenceLength(t, s);
      RemoveAllShrinks(s, pats[0]);
      FixpointHasNoPattern(s, pats[1..]);
      forall i | 0 <= i < |pats|
        ensures !Contains(s, pats[i])
      {
        if i > 0 {
          assert pats[i] == pats[1..][i - 1];
        }
      }
    }
  }

  /** Repeats the deletion pass until it deletes nothing, then strips. */
  function PassToFixpoint(s: string, pats: seq<string>): (r: string)
    requires NonEmptyPatterns(pats)
    ensures forall i | 0 <= i < |pats| :: !Contains(r, pats[i])
    ensures IsSubsequence(r, s)
    decreases |s|
  {
    var t := RemovePatterns(s, pats);
    RemovePatternsSub(s, pats);
    SubsequenceLength(t, s);
    if t == s then
      var r := Strip(s);
      FixpointHasNoPattern(s, pats);
      SliceSub(s, LeadCount(s), LeadCount(s) + |r|);
      forall i | 0 <= i < |pats|
        ensures !Contains(r, pats[i])
      {
        ContainsSlice(s, LeadCount(s), LeadCount(s) + |r|, pats[i]);
      }
      r
    else
      var r := PassToFixpoint(t, pats);
      SubsequenceTrans(r, t, s);
      r
  }

  /** The intended sanitiser: no dangerous pattern survives, the
      multi-character ones included. */
  function SanitizeToFixpoint(userInput: string): (r: string)
    ensures forall i | 0 <= i < |DangerousPatterns| :: !Contains(r, DangerousPatterns[i])
    ensures IsSubsequence(r, userInput)
  {
    DangerousPatternsFacts();
    PassToFixpoint(userInput, DangerousPatterns)
  }

  /** The intended sanitiser rejects the input that defeats `SanitizeInput`. */
  lemma FixpointRemovesReformedPattern()
    ensures !Contains(SanitizeToFixpoint("&|&"), "&&")
  {
    assert DangerousPatterns[1] == "&&";
  }

  // ---------------------------------------------------------------------------
  // validate_dict_structure and safe_get

  /** `all(key in fields for key in keys)` */
  function AllPresent(keys: seq<string>, fields: map<string, Value>): (r: bool)
    ensures r <==> forall i | 0 <= i < |keys| :: keys[i] in fields
    decreases |keys|
  {
    if |keys| == 0 then true
    else if keys[0] !in fields then false
    else AllPresent(keys[1..], fields)
  }

  /** `validate_dict_structure(data, required_keys)` */
  function ValidateDictStructure(data: Value, requiredKeys: seq<string>): (r: bool)
    ensures r <==> data.VDict? && forall i | 0 <= i < |requiredKeys| :: requiredKeys[i] in data.fields
  {
    data.VDict? && AllPresent(requiredKeys, data.fields)
  }

  /** `safe_get(data, key, default)`: `data.get(key, default)`, and `default`
      when `data` has no `get` (is not a dictionary). */
  function SafeGet(data: Value, key: string, default: Value): (r: Value)
    ensures data.VDict? && key in data.fields ==> r == data.fields[key]
    ensures !(data.VDict? && key in data.fields) ==> r == default
  {
    match data
    case VDict(fields) => if key in fields then fields[key] else default
    case _ => default
  }

  /** A structure check on `keys` makes `safe_get` of any of them return the
      stored value, whatever the default. */
  lemma ValidatedKeysAreStored(data: Value, keys: seq<string>, i: nat, d1: Value, d2: Value)
    requires ValidateDictStructure(data, keys) && i < |keys|
    ensures SafeGet(data, keys[i], d1) == SafeGet(data, keys[i], d2) == data.fields[keys[i]]
  {
  }

  // ---------------------------------------------------------------------------
  // truncate_string

  const DefaultMaxLength: int := 100
  const DefaultSuffix: string := "..."

  /** `truncate_string(text, max_length, suffix)` */
  function TruncateString(text: string, maxLength: int, suffix: string): (r: string)
    ensures |text| <= maxLength ==> r == text
    ensures |text| > maxLength ==> EndsWith(r, suffix) && StartsWith(text, r[..|r| - |suffix|])
    ensures |text| > maxLength && maxLength >= |suffix| ==>
              |r| == maxLength && r == text[..maxLength - |suffix|] + suffix
  {
    if |text| <= maxLength then text
    else
      var r := PySlice(text, 0, maxLength - |suffix|) + suffix;
      assert r[..|r| - |suffix|] == PySlice(text, 0, maxLength - |suffix|);
      r
  }
}
