/** The `AN` (alphanumeric) field rules of the gateway's data helper:
    `validate_an`, `validate_ans`, `validate_null_or_an` and `sanitize_an`.

    Strings are sequences of Unicode code points, so every length here counts
    characters, not bytes. The markup stripper is simplified to what the
    helper's test table fixes: a `<` opens a tag that runs up to and including
    the next `>` (or to the end of the text when no `>` follows), and only the
    text outside tags is kept. Outer whitespace is then trimmed as PHP's
    `trim` does. */
module DataHelper {
  import opened Wrappers

  // ---------------------------------------------------------------------
  // Trimming (PHP `trim` with its default character list)
  // ---------------------------------------------------------------------

  /** The characters PHP's `trim` removes by default: space, tab, line feed,
      carriage return, NUL and vertical tab. */
  predicate IsTrimmable(c: char) {
    c == ' ' || c == '\t' || c == '\n' || c == '\r' || c == '\0' || c == '\U{B}'
  }

  /** Neither end of `s` is a character `trim` would remove. */
  predicate NoOuterWhitespace(s: string) {
    s == [] || (!IsTrimmable(s[0]) && !IsTrimmable(s[|s| - 1]))
  }

  /** How many trimmable characters `s` starts with. */
  function LeadingCount(s: string): (n: nat)
    ensures n <= |s|
    ensures forall k :: 0 <= k < n ==> IsTrimmable(s[k])
    ensures n == |s| || !IsTrimmable(s[n])
  {
    if s != [] && IsTrimmable(s[0]) then 1 + LeadingCount(s[1..]) else 0
  }

  /** How many trimmable characters `s` ends with. */
  function TrailingCount(s: string): (n: nat)
    ensures n <= |s|
    ensures forall k :: |s| - n <= k < |s| ==> IsTrimmable(s[k])
    ensures n == |s| || !IsTrimmable(s[|s| - 1 - n])
  {
    if s != [] && IsTrimmable(s[|s| - 1]) then 1 + TrailingCount(s[..|s| - 1]) else 0
  }

  /** PHP `trim`: the part of `s` between its leading and its trailing
      whitespace, taken as one unbroken slice, so everything inside it
      (interior spaces and line breaks included) is kept in order. Only
      whitespace lies outside it, and it neither starts nor ends with
      whitespace; `TrimUnique` shows these facts pin it down. */
  function Trim(s: string): (r: string)
    ensures LeadingCount(s) + |r| <= |s|
    ensures r == s[LeadingCount(s)..LeadingCount(s) + |r|]
    ensures forall k :: LeadingCount(s) + |r| <= k < |s| ==> IsTrimmable(s[k])
    ensures NoOuterWhitespace(r)
  {
    var i := LeadingCount(s);
    if i == |s| then [] else s[i..|s| - TrailingCount(s)]
  }

  /** Text made of whitespace only (possibly none). */
  predicate AllWhitespace(t: string) {
    forall k :: 0 <= k < |t| ==> IsTrimmable(t[k])
  }

  /** The input is the trimmed text with whitespace before and after it. */
  lemma TrimSplits(s: string)
    ensures var i := LeadingCount(s); var j := i + |Trim(s)|;
      j <= |s| && s == s[..i] + Trim(s) + s[j..]
      && AllWhitespace(s[..i]) && AllWhitespace(s[j..])
  {
    var i := LeadingCount(s);
    var r := Trim(s);
    var j := i + |r|;
    assert r == s[i..j];
    assert s == s[..i] + s[i..j] + s[j..];
    forall k | 0 <= k < |s[j..]| ensures IsTrimmable(s[j..][k]) {
      assert s[j..][k] == s[j + k];
    }
  }

  /** Any slice `s[i..j]` with only whitespace outside it and none at its
      ends is what `trim` returns: the trimmed text is the unique such
      slice. */
  lemma TrimUnique(s: string, i: nat, j: nat)
    requires i <= j <= |s|
    requires AllWhitespace(s[..i]) && AllWhitespace(s[j..])
    requires NoOuterWhitespace(s[i..j])
    ensures Trim(s) == s[i..j]
  {
    assert forall k :: 0 <= k < i ==> s[k] == s[..i][k];
    assert forall k :: j <= k < |s| ==> s[k] == s[j..][k - j];
    if i < j {
      assert !IsTrimmable(s[i]) && !IsTrimmable(s[j - 1]);
    }
  }

  /** Trimming keeps every character that is not whitespace, and adds
      none. */
  lemma TrimKeepsText(s: string)
    ensures forall c :: !IsTrimmable(c) ==> (c in Trim(s) <==> c in s)
  {
    var i := LeadingCount(s);
    var r := Trim(s);
    forall c | !IsTrimmable(c) && c in s ensures c in r {
      var k :| 0 <= k < |s| && s[k] == c;
      assert r[k - i] == c;
    }
    forall c | c in r ensures c in s {
      var k :| 0 <= k < |r| && r[k] == c;
      assert s[i + k] == c;
    }
  }

  /** Trimming text that has no outer whitespace changes nothing. */
  lemma TrimNoOuterWhitespace(s: string)
    requires NoOuterWhitespace(s)
    ensures Trim(s) == s
  {
    TrimUnique(s, 0, |s|);
  }

  // ---------------------------------------------------------------------
  // Tag stripping
  // ---------------------------------------------------------------------

  /** The text after the first `>` of `s`, or nothing when `s` has no `>`:
      what is left once the rest of an unclosed tag has been skipped. */
  function SkipTag(s: string): (r: string)
    ensures |r| <= |s| && r == s[|s| - |r|..]
    ensures '>' in s ==> |r| < |s| && s[|s| - |r| - 1] == '>'
    ensures '>' !in s ==> r == []
  {
    if s == [] then []
    else if s[0] == '>' then s[1..]
    else SkipTag(s[1..])
  }

  /** The text of `s` outside its tags, in order. Inner text of an element is
      kept; the tags themselves are dropped. */
  function StripTags(s: string): (r: string)
    ensures '<' !in r
    ensures |r| <= |s|
    decreases |s|
  {
    if s == [] then []
    else if s[0] == '<' then StripTags(SkipTag(s[1..]))
    else [s[0]] + StripTags(s[1..])
  }

  /** WordPress's `wp_strip_all_tags` as the helper uses it: strip the tags,
      then trim. Interior line breaks are kept. */
  function StripAllTags(s: string): (r: string)
    ensures '<' !in r
    ensures NoOuterWhitespace(r)
    ensures |r| <= |s|
  {
    Trim(StripTags(s))
  }

  /** `mb_substr(s, 0, n)`: the first `n` code points of `s`. */
  function Truncate(s: string, n: nat): (r: string)
    ensures r <= s
    ensures |r| == if |s| <= n then |s| else n
  {
    if |s| <= n then s else s[..n]
  }

  // ---------------------------------------------------------------------
  // The AN rules
  // ---------------------------------------------------------------------

  /** Why a value was refused; both carry the name of the field. */
  datatype FieldError =
    | TooLong(field: string, max: nat)
    | ContainsMarkup(field: string)

  /** `true` returned, or an `InvalidArgumentException` thrown. */
  datatype Check = Pass | Fail(error: FieldError)

  /** `sanitize_an`: the first `length` characters of the tag-stripped,
      trimmed text. Tags are stripped before the text is cut, so markup never
      uses up any of the `length` characters. */
  function SanitizeAn(s: string, length: nat): (r: string)
    ensures |r| <= length
    ensures '<' !in r
    ensures r <= StripAllTags(s)
    ensures |StripAllTags(s)| <= length ==> r == StripAllTags(s)
    ensures |StripAllTags(s)| > length ==> |r| == length
  {
    Truncate(StripAllTags(s), length)
  }

  /** `validate_an`: the value may have at most `length` characters, and
      stripping tags from it may change nothing but its outer whitespace. */
  function ValidateAn(value: string, length: nat, field: string): (r: Check)
    ensures r.Pass? ==> |value| <= length
    ensures r.Fail? ==> r.error.field == field
    ensures r == Fail(TooLong(field, length)) <==> |value| > length
  {
    if |value| > length then Fail(TooLong(field, length))
    else if StripAllTags(value) != Trim(value) then Fail(ContainsMarkup(field))
    else Pass
  }

  /** `validate_ans`: the `AN` rule with a larger symbol set. Which symbols the
      processor accepts is not part of this model, so the two rules check the
      same length and markup conditions. */
  function ValidateAns(value: string, length: nat, field: string): (r: Check)
    ensures r.Fail? ==> r.error.field == field
    ensures r.Pass? <==> ValidateAn(value, length, field).Pass?
  {
    ValidateAn(value, length, field)
  }

  /** `validate_null_or_an`: `null` always passes, any other value must pass
      `validate_an`. */
  function ValidateNullOrAn(value: Option<string>, length: nat, field: string): (r: Check)
    ensures value.None? ==> r.Pass?
    ensures value.Some? ==> r == ValidateAn(value.value, length, field)
  {
    match value
    case None => Pass
    case Some(v) => ValidateAn(v, length, field)
  }

  // ---------------------------------------------------------------------
  // Properties
  // ---------------------------------------------------------------------

  /** Text without a `<` has no tags: stripping leaves it as it is. */
  lemma {:induction false} StripTagsTagFree(s: string)
    requires '<' !in s
    ensures StripTags(s) == s
  {
    if s != [] {
      StripTagsTagFree(s[1..]);
    }
  }

  /** Stripping changes the text exactly when it contains a `<`. */
  lemma StripTagsChangesIff(s: string)
    ensures StripTags(s) == s <==> '<' !in s
  {
    if '<' !in s {
      StripTagsTagFree(s);
    }
  }

  /** `validate_an` accepts exactly the values that are short enough and hold
      no markup; outer whitespace is tolerated. */
  lemma ValidateAnAccepts(value: string, length: nat, field: string)
    ensures ValidateAn(value, length, field).Pass? <==> |value| <= length && '<' !in value
  {
    if '<' !in value {
      StripTagsTagFree(value);
    } else {
      TrimKeepsText(value);
      assert '<' in Trim(value);
      assert '<' !in StripAllTags(value);
    }
  }

  /** `validate_null_or_an` accepts `null` and exactly the values that are
      short enough and hold no markup. */
  lemma ValidateNullOrAnAccepts(value: Option<string>, length: nat, field: string)
    ensures ValidateNullOrAn(value, length, field).Pass? <==>
      (value.Some? ==> |value.value| <= length && '<' !in value.value)
  {
    if value.Some? {
      ValidateAnAccepts(value.value, length, field);
    }
  }

  /** A value `validate_an` accepts is left as it is by `sanitize_an`, up to
      its outer whitespace. */
  lemma ValidatedIsSanitized(value: string, length: nat, field: string)
    requires ValidateAn(value, length, field).Pass?
    ensures SanitizeAn(value, length) == Trim(value)
  {
    ValidateAnAccepts(value, length, field);
    StripTagsTagFree(value);
  }

  /** On tag-free text without outer whitespace, `sanitize_an` only cuts: it
      is the identity up to `length` characters and keeps the first `length`
      characters of a longer text. */
  lemma SanitizeAnTagFree(s: string, length: nat)
    requires '<' !in s && NoOuterWhitespace(s)
    ensures |s| <= length ==> SanitizeAn(s, length) == s
    ensures |s| > length ==> SanitizeAn(s, length) == s[..length]
  {
    StripTagsTagFree(s);
    TrimNoOuterWhitespace(s);
  }

  /** Text before a tag passes through stripping unchanged. */
  lemma {:induction false} StripTagsText(a: string, b: string)
    requires '<' !in a
    ensures StripTags(a + b) == a + StripTags(b)
  {
    if a == [] {
      assert a + b == b;
    } else {
      assert (a + b)[0] == a[0] && a[0] != '<';
      assert (a + b)[1..] == a[1..] + b;
      assert StripTags(a + b) == [a[0]] + StripTags(a[1..] + b);
      StripTagsText(a[1..], b);
      assert a == [a[0]] + a[1..];
    }
  }

  /** Skipping the rest of a tag stops right after its closing `>`. */
  lemma {:induction false} SkipTagClosed(t: string, b: string)
    requires '>' !in t
    ensures SkipTag(t + ['>'] + b) == b
  {
    if t == [] {
      assert t + ['>'] + b == ['>'] + b;
    } else {
      assert (t + ['>'] + b)[0] == t[0];
      assert (t + ['>'] + b)[1..] == t[1..] + ['>'] + b;
      SkipTagClosed(t[1..], b);
    }
  }

  /** A whole tag `<t>` disappears, whatever follows it. */
  lemma StripTagsTag(t: string, b: string)
    requires '>' !in t
    ensures StripTags(['<'] + t + ['>'] + b) == StripTags(b)
  {
    assert (['<'] + t + ['>'] + b)[1..] == t + ['>'] + b;
    SkipTagClosed(t, b);
  }

  /** An element `<open>x<close>` leaves only its inner text `x`. */
  lemma StripTagsElement(open: string, x: string, close: string, b: string)
    requires '>' !in open && '>' !in close && '<' !in x
    ensures StripTags(['<'] + open + ['>'] + (x + (['<'] + close + ['>'] + b))) == x + StripTags(b)
  {
    StripTagsTag(open, x + (['<'] + close + ['>'] + b));
    StripTagsText(x, ['<'] + close + ['>'] + b);
    StripTagsTag(close, b);
  }

  /** Text around one element `<open>x<close>` keeps everything but the two
      tags. */
  lemma StripTagsAroundElement(a: string, open: string, x: string, close: string, b: string)
    requires '<' !in a && '<' !in x && '<' !in b && '>' !in open && '>' !in close
    ensures StripTags(a + (['<'] + open + ['>'] + (x + (['<'] + close + ['>'] + b)))) == a + (x + b)
  {
    var element := ['<'] + open + ['>'] + (x + (['<'] + close + ['>'] + b));
    assert StripTags(a + element) == a + StripTags(element) by {
      StripTagsText(a, element);
    }
    assert StripTags(element) == x + StripTags(b) by {
      StripTagsElement(open, x, close, b);
    }
    assert StripTags(b) == b by {
      StripTagsTagFree(b);
    }
  }

  // ---------------------------------------------------------------------
  // The rows of the helper's test table, one lemma per input text
  // ---------------------------------------------------------------------

  /** The rows of the `sanitize_an` table on `1234567890`: with a limit of
      10 or 100 nothing changes, with a limit of 5 the text is cut. */
  lemma SanitizeAnDigitsRows(digits: string)
    requires digits == "1234567890"
    ensures SanitizeAn(digits, 10) == digits
    ensures SanitizeAn(digits, 100) == digits
    ensures SanitizeAn(digits, 5) == "12345"
  {
    assert '<' !in digits && NoOuterWhitespace(digits);
    SanitizeAnTagFree(digits, 10);
    SanitizeAnTagFree(digits, 100);
    SanitizeAnTagFree(digits, 5);
  }

  /** The Latin-1 row of the `sanitize_an` table: the cut counts code points,
      not the two bytes each of these letters takes in UTF-8. (The input is
      written as two halves only to keep the literals short.) */
  lemma SanitizeAnLatinRow(latin: string)
    requires latin == "ÀÁÂÃÄÅÆÇÈÉÊËÌÍÎÏÐÑÒÓÔÕÖ×ØÙÚÛÜÝÞß" + "àáâãäåæçèéêëìíîïðñòóôõö÷øùúûüýþÿ"
    ensures SanitizeAn(latin, 5) == "ÀÁÂÃÄ"
  {
    var front, back := "ÀÁÂÃÄÅÆÇÈÉÊËÌÍÎÏÐÑÒÓÔÕÖ×ØÙÚÛÜÝÞß", "àáâãäåæçèéêëìíîïðñòóôõö÷øùúûüýþÿ";
    assert '<' !in front && '<' !in back;
    assert latin[0] == front[0] && latin[|latin| - 1] == back[|back| - 1];
    SanitizeAnTagFree(latin, 5);
    assert latin[..5] == front[..5];
  }

  /** The Arabic row of the `sanitize_an` table: ten code points, spaces
      included. (The input is written as two halves only to keep the literals
      short.) */
  lemma SanitizeAnArabicRow(arabic: string)
    requires arabic == "كنت أريد أن أقرأ كتابا " + "عن تاريخ المرأة في فرنسا"
    ensures SanitizeAn(arabic, 10) == "كنت أريد أ"
  {
    var front, back := "كنت أريد أن أقرأ كتابا ", "عن تاريخ المرأة في فرنسا";
    assert '<' !in front && '<' !in back;
    assert arabic[0] == front[0] && arabic[|arabic| - 1] == back[|back| - 1];
    SanitizeAnTagFree(arabic, 10);
    assert arabic[..10] == front[..10];
  }

  /** The first tag row of the `sanitize_an` table: the `strong` tags go and
      the text between them stays, spaces around them included. (Inputs with
      tags are written as concatenations of their pieces.) */
  lemma SanitizeAnWordsRow(words: string)
    requires words == "test " + "<strong>" + "abcd" + "</strong>" + " 1234"
    ensures SanitizeAn(words, 20) == "test abcd 1234"
  {
    assert StripTags(words) == "test abcd 1234" by {
      assert words == "test " + (['<'] + "strong" + ['>'] + ("abcd" + (['<'] + "/strong" + ['>'] + " 1234")));
      StripTagsAroundElement("test ", "strong", "abcd", "/strong", " 1234");
    }
    assert Trim("test abcd 1234") == "test abcd 1234" by {
      TrimNoOuterWhitespace("test abcd 1234");
    }
  }

  /** The second tag row of the `sanitize_an` table: stripping comes before
      cutting, so all ten digits survive a limit of 10. */
  lemma SanitizeAnTaggedDigitsRow(digits: string)
    requires digits == "12345" + "<strong>" + "67890" + "</strong>"
    ensures SanitizeAn(digits, 10) == "1234567890"
  {
    assert StripTags(digits) == "1234567890" by {
      assert digits == "12345" + (['<'] + "strong" + ['>'] + ("67890" + (['<'] + "/strong" + ['>'] + "")));
      StripTagsAroundElement("12345", "strong", "67890", "/strong", "");
    }
    assert Trim("1234567890") == "1234567890" by {
      TrimNoOuterWhitespace("1234567890");
    }
  }

  /** Why the order matters on the same row: cutting the raw text to 10
      characters first and stripping afterwards would leave only `12345`,
      which is not what the table expects. */
  lemma CutBeforeStripLosesText(digits: string)
    requires digits == "12345" + "<strong>" + "67890" + "</strong>"
    ensures StripAllTags(Truncate(digits, 10)) == "12345"
  {
    var unclosed := ['<'] + "stro";
    assert Truncate(digits, 10) == "12345" + unclosed;
    assert StripTags(unclosed) == [] by {
      assert unclosed[1..] == "stro";
    }
    StripTagsText("12345", unclosed);
    assert Trim("12345") == "12345" by {
      TrimNoOuterWhitespace("12345");
    }
  }

  /** The line-break row of the `sanitize_an` table: interior CR/LF pairs
      survive. */
  lemma SanitizeAnLinesRow(lines: string)
    requires lines == "line 1\r\nline 2\r\nline 3"
    ensures SanitizeAn(lines, 100) == lines
  {
    SanitizeAnTagFree(lines, 100);
  }

  /** The valid rows of the `validate_an` table: ten digits pass with a limit
      of 50, with or without a leading and a trailing space. */
  lemma ValidateAnPlainRows(plain: string)
    requires plain == "1234567890"
    ensures ValidateAn(plain, 50, "").Pass?
    ensures ValidateAn([' '] + plain, 50, "").Pass?
    ensures ValidateAn(plain + [' '], 50, "").Pass?
    ensures ValidateAn([' '] + plain + [' '], 50, "").Pass?
  {
    StripTagsTagFree(plain);
    StripTagsTagFree([' '] + plain);
    StripTagsTagFree(plain + [' ']);
    StripTagsTagFree([' '] + plain + [' ']);
  }

  /** The first invalid row of the `validate_an` table: a paragraph element
      is refused as markup. */
  lemma ValidateAnParagraphRow(paragraph: string)
    requires paragraph == "<p>1234567890</p>"
    ensures ValidateAn(paragraph, 50, "") == Fail(ContainsMarkup(""))
  {
    assert paragraph[0] == '<';
    TrimKeepsText(paragraph);
    assert '<' in Trim(paragraph);
  }

  /** The second invalid row of the `validate_an` table: a script element is
      refused as markup. */
  lemma ValidateAnScriptRow(script: string)
    requires script == "<script>1234567890</script>"
    ensures ValidateAn(script, 50, "") == Fail(ContainsMarkup(""))
  {
    assert script[0] == '<';
    TrimKeepsText(script);
    assert '<' in Trim(script);
  }
}
