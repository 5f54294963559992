/** The few text operations the models need, on plain ASCII letters and spaces. */
module Text {

  predicate IsSpace(c: char) {
    c == ' ' || c == '\t' || c == '\n' || c == '\r'
  }

  function LowerChar(c: char): char {
    if 'A' <= c <= 'Z' then (c as int + 32) as char else c
  }

  function Lower(s: string): string {
    seq(|s|, i requires 0 <= i < |s| => LowerChar(s[i]))
  }

  predicate FoundAt(text: string, part: string, i: nat) {
    i + |part| <= |text| && text[i..i + |part|] == part
  }

  predicate Contains(text: string, part: string) {
    exists i :: 0 <= i <= |text| && FoundAt(text, part, i)
  }

  function StripLeft(s: string): string {
    if s != "" && IsSpace(s[0]) then StripLeft(s[1..]) else s
  }

  function StripRight(s: string): string {
    if s != "" && IsSpace(s[|s| - 1]) then StripRight(s[..|s| - 1]) else s
  }

  function Strip(s: string): string {
    StripRight(StripLeft(s))
  }

  function Cut(s: string, limit: nat): string {
    if |s| <= limit then s else s[..limit]
  }

  // ----- stripping

  /** Empty, or without a space at either end. */
  ghost predicate Trimmed(s: string) {
    s == "" || (!IsSpace(s[0]) && !IsSpace(s[|s| - 1]))
  }

  lemma {:induction false} StripLeftIs(s: string)
    ensures StripLeft(s) == "" || !IsSpace(StripLeft(s)[0])
  {
    if s != "" && IsSpace(s[0]) {
      StripLeftIs(s[1..]);
    }
  }

  lemma {:induction false} StripRightIs(s: string)
    ensures StripRight(s) == "" || !IsSpace(StripRight(s)[|StripRight(s)| - 1])
    ensures StripRight(s) <= s
    ensures s != "" && !IsSpace(s[0]) ==> StripRight(s) != ""
  {
    if s != "" && IsSpace(s[|s| - 1]) {
      StripRightIs(s[..|s| - 1]);
    }
  }

  /** Stripping trims, and does nothing to a trimmed text. */
  lemma StripTrims(s: string)
    ensures Trimmed(Strip(s))
    ensures Trimmed(s) ==> Strip(s) == s
  {
    StripLeftIs(s);
    StripRightIs(StripLeft(s));
  }

  predicate AllSpaces(s: string) {
    forall i :: 0 <= i < |s| ==> IsSpace(s[i])
  }

  lemma {:induction false} LeftSpaces(s: string) returns (spaces: string)
    ensures s == spaces + StripLeft(s) && AllSpaces(spaces)
  {
    if s != "" && IsSpace(s[0]) {
      assert s == [s[0]] + s[1..];
      var rest := LeftSpaces(s[1..]);
      spaces := [s[0]] + rest;
    } else {
      spaces := "";
    }
  }

  lemma {:induction false} RightSpaces(s: string) returns (spaces: string)
    ensures s == StripRight(s) + spaces && AllSpaces(spaces)
  {
    if s != "" && IsSpace(s[|s| - 1]) {
      assert s == s[..|s| - 1] + [s[|s| - 1]];
      var rest := RightSpaces(s[..|s| - 1]);
      spaces := rest + [s[|s| - 1]];
    } else {
      spaces := "";
    }
  }

  /** Stripping takes away spaces at both ends and nothing else. */
  lemma StripIs(s: string) returns (left: string, right: string)
    ensures s == left + Strip(s) + right && AllSpaces(left) && AllSpaces(right) && Trimmed(Strip(s))
  {
    left := LeftSpaces(s);
    right := RightSpaces(StripLeft(s));
    StripTrims(s);
  }

  /** Lower-casing maps the capitals to the small letters, in order, and keeps every other character. */
  lemma LowerIs(s: string)
    ensures |Lower(s)| == |s|
    ensures forall i :: 0 <= i < |s| ==>
      if 'A' <= s[i] <= 'Z' then 'a' <= Lower(s)[i] <= 'z' && Lower(s)[i] - 'a' == s[i] - 'A' else Lower(s)[i] == s[i]
  {
  }

  /** A text contains its infixes. */
  lemma ContainsIs(text: string, part: string)
    ensures Contains(text, part) <==> exists before, after :: text == before + part + after
  {
    if Contains(text, part) {
      var i :| 0 <= i <= |text| && FoundAt(text, part, i);
      assert text == text[..i] + part + text[i + |part|..];
    }
    if before, after :| text == before + part + after {
      assert text[|before|..|before| + |part|] == part;
      assert FoundAt(text, part, |before|);
    }
  }

  lemma CutIs(s: string, limit: nat)
    ensures Cut(s, limit) <= s && |Cut(s, limit)| == if |s| <= limit then |s| else limit
  {
  }

  /** A stripped text cut to a positive length is blank only if it was blank. */
  lemma CutBlank(s: string, limit: nat)
    requires limit > 0
    ensures Cut(Strip(s), limit) == "" <==> Strip(s) == ""
    ensures Strip(Cut(Strip(s), limit)) == "" <==> Strip(s) == ""
  {
    StripTrims(s);
    var cut := Cut(Strip(s), limit);
    StripLeftIs(cut);
    StripRightIs(StripLeft(cut));
    if Strip(s) != "" {
      assert !IsSpace(cut[0]);
    }
  }

  /** Lower-casing keeps a text trimmed, so stripping and lower-casing twice changes nothing. */
  lemma LowerStripOnce(s: string)
    ensures Lower(Strip(Lower(Strip(s)))) == Lower(Strip(s))
  {
    StripTrims(s);
    var low := Lower(Strip(s));
    assert Trimmed(low);
    StripTrims(low);
    assert Lower(low) == low;
  }
}
