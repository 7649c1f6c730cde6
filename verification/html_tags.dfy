/** Tag stripping of a parsed reply: `re.sub(r'<[^>]+>', '', s)` on every
    string of a JSON tree, leaving its shape alone. */
module HtmlTags {
  import opened Strings
  import opened Json

  /** A match of `<[^>]+>` starts at `i`: a '<', then at least one
      character before the first '>' that follows. */
  predicate TagAt(t: string, i: int)
  {
    0 <= i && i + 1 < |t| && t[i] == '<' && t[i + 1] != '>' && '>' in t[i + 2..]
  }

  predicate NoTags(t: string)
  {
    forall i :: 0 <= i < |t| ==> !TagAt(t, i)
  }

  /** The substitution, scanning left to right: a match is dropped and the
      scan resumes after its '>'; elsewhere one character is kept. */
  function StripTags(s: string): (r: string)
    ensures |r| <= |s|
    decreases |s|
  {
    if s == [] then []
    else if TagAt(s, 0) then
      var close := 2 + IndexOf(s[2..], '>');
      StripTags(s[close + 1..])
    else [s[0]] + StripTags(s[1..])
  }

  lemma TagAtShift(c: char, t: string, i: nat)
    ensures TagAt([c] + t, i + 1) <==> TagAt(t, i)
  {
    if i + 1 < |t| {
      assert ([c] + t)[i + 3..] == t[i + 2..];
    }
  }

  /** Text without a '>' has no match, so the substitution keeps it. */
  lemma {:induction false} StripNoClose(s: string)
    requires '>' !in s
    ensures StripTags(s) == s
    decreases |s|
  {
    if s != [] {
      assert !TagAt(s, 0);
      StripNoClose(s[1..]);
    }
  }

  /** The result of the substitution contains no further match. */
  lemma {:induction false} StripLeavesNoTags(s: string)
    ensures NoTags(StripTags(s))
    decreases |s|
  {
    if s != [] {
      if TagAt(s, 0) {
        var close := 2 + IndexOf(s[2..], '>');
        StripLeavesNoTags(s[close + 1..]);
      } else {
        var rest := StripTags(s[1..]);
        var r := [s[0]] + rest;
        StripLeavesNoTags(s[1..]);
        forall i | 0 <= i < |r|
          ensures !TagAt(r, i)
        {
          if i > 0 {
            TagAtShift(s[0], rest, i - 1);
          } else if s[0] == '<' && |s| > 1 {
            if s[1] == '>' {
              assert s[1..] != [] && !TagAt(s[1..], 0);
              assert r[1] == '>';
            } else {
              assert '>' !in s[2..];
              assert '>' !in s[1..];
              StripNoClose(s[1..]);
              assert r[2..] == s[2..];
            }
          }
        }
      }
    }
  }

  /** Text without a match is left as it is. */
  lemma {:induction false} StripWithoutTags(t: string)
    requires NoTags(t)
    ensures StripTags(t) == t
    decreases |t|
  {
    if t != [] {
      assert !TagAt(t, 0);
      assert t == [t[0]] + t[1..];
      forall i | 0 <= i < |t| - 1
        ensures !TagAt(t[1..], i)
      {
        TagAtShift(t[0], t[1..], i);
        assert !TagAt(t, i + 1);
      }
      StripWithoutTags(t[1..]);
      assert StripTags(t) == [t[0]] + StripTags(t[1..]);
    }
  }

  /** Stripping twice is stripping once. */
  lemma StripIdempotent(s: string)
    ensures StripTags(StripTags(s)) == StripTags(s)
  {
    StripLeavesNoTags(s);
    StripWithoutTags(StripTags(s));
  }

  /** `clean_html_tags`: strings are stripped, lists and dicts are rebuilt
      from their cleaned members, and every other value is returned as it is. */
  function CleanHtmlTags(data: Json): (r: Json)
    ensures data.JStr? ==> r == JStr(StripTags(data.s))
    ensures data.JArr? ==> r.JArr? && |r.items| == |data.items|
    ensures data.JObj? ==> r.JObj? && r.fields.Keys == data.fields.Keys
    ensures !data.JStr? && !data.JArr? && !data.JObj? ==> r == data
    decreases data
  {
    match data
    case JObj(fields) => JObj(map k | k in fields :: CleanHtmlTags(fields[k]))
    case JArr(items) => JArr(seq(|items|, i requires 0 <= i < |items| => CleanHtmlTags(items[i])))
    case JStr(s) => JStr(StripTags(s))
    case _ => data
  }

  /** Every string anywhere in the tree is free of matches. */
  predicate Clean(data: Json)
    decreases data
  {
    match data
    case JStr(s) => NoTags(s)
    case JArr(items) => forall i :: 0 <= i < |items| ==> Clean(items[i])
    case JObj(fields) => forall k :: k in fields ==> Clean(fields[k])
    case _ => true
  }

  /** Members of a cleaned list and dict are the cleaned members. */
  lemma CleanMembers(data: Json)
    ensures data.JArr? ==> forall i :: 0 <= i < |data.items| ==>
      CleanHtmlTags(data).items[i] == CleanHtmlTags(data.items[i])
    ensures data.JObj? ==> forall k :: k in data.fields ==>
      CleanHtmlTags(data).fields[k] == CleanHtmlTags(data.fields[k])
  {
  }

  /** Cleaning leaves no match in any string of the tree. */
  lemma {:induction false} CleanedIsClean(data: Json)
    ensures Clean(CleanHtmlTags(data))
    decreases data
  {
    match data
    case JStr(s) => StripLeavesNoTags(s);
    case JArr(items) =>
      forall i | 0 <= i < |items|
        ensures Clean(CleanHtmlTags(data).items[i])
      {
        CleanedIsClean(items[i]);
      }
    case JObj(fields) =>
      forall k | k in fields
        ensures Clean(CleanHtmlTags(data).fields[k])
      {
        CleanedIsClean(fields[k]);
      }
    case _ =>
  }

  /** Cleaning a clean tree changes nothing. */
  lemma {:induction false} CleanFixesClean(data: Json)
    requires Clean(data)
    ensures CleanHtmlTags(data) == data
    decreases data
  {
    match data
    case JStr(s) => StripWithoutTags(s);
    case JArr(items) =>
      forall i | 0 <= i < |items|
        ensures CleanHtmlTags(data).items[i] == items[i]
      {
        CleanFixesClean(items[i]);
      }
    case JObj(fields) =>
      forall k | k in fields
        ensures CleanHtmlTags(data).fields[k] == fields[k]
      {
        CleanFixesClean(fields[k]);
      }
    case _ =>
  }

  /** Cleaning twice is cleaning once. */
  lemma CleanIdempotent(data: Json)
    ensures CleanHtmlTags(CleanHtmlTags(data)) == CleanHtmlTags(data)
  {
    CleanedIsClean(data);
    CleanFixesClean(CleanHtmlTags(data));
  }

  /** `clean_html_tags` on the top-level dict of a reply. */
  function CleanObject(reply: map<string, Json>): (r: map<string, Json>)
    ensures r.Keys == reply.Keys
    ensures forall k :: k in reply ==> r[k] == CleanHtmlTags(reply[k])
  {
    map k | k in reply :: CleanHtmlTags(reply[k])
  }
}
