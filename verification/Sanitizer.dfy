/**
 * SanitizeConnectionString of cpp/src/common/string_utils.cpp: it copies a connection
 * string, replacing whatever follows "PWD=" or "PASSWORD=" (in any case, anywhere) up to
 * the next ';' by eight asterisks.
 */
module Sanitizer {

  const PWD_KEY := "PWD="
  const PASSWORD_KEY := "PASSWORD="
  const STARS := "********"
  const EMPTY_ANSWER := "(empty connection string)"

  /** std::toupper in the "C" locale. */
  function ToUpper(c: char): char {
    if 'a' <= c <= 'z' then c - 'a' + 'A' else c
  }

  /** `s` starts with `key`, upper-casing `s` only: the test on `substr(i, key.size())`. */
  predicate StartsWith(s: string, key: string) {
    |key| <= |s| && forall k | 0 <= k < |key| :: ToUpper(s[k]) == key[k]
  }

  predicate IsPasswordField(s: string) {
    StartsWith(s, PWD_KEY) || StartsWith(s, PASSWORD_KEY)
  }

  /** Position of the first `c` at or after the start, |s| when there is none. */
  function Find(s: string, c: char): (p: nat)
    ensures p <= |s|
    ensures p < |s| ==> s[p] == c
    ensures forall k | 0 <= k < p :: s[k] != c
  {
    if s == "" || s[0] == c then 0 else 1 + Find(s[1..], c)
  }

  /** Key with its equals sign, at the start of a password field. */
  function FieldKey(s: string): string {
    var p := Find(s, '=');
    if p < |s| then s[..p + 1] else s
  }

  /** The scanning loop of the source, as a function of the text still to be scanned. */
  function Scan(s: string): string
    decreases |s|, 1
  {
    if s == "" then ""
    else if IsPasswordField(s) then
      FieldHasKey(s);
      FieldKey(s) + STARS + AfterValue(s[|FieldKey(s)|..])
    else [s[0]] + Scan(s[1..])
  }

  /** What is written for the text after a key: nothing of the value, then the semicolon and the rest. */
  function AfterValue(value: string): string
    decreases |value|, 0
  {
    var semi := Find(value, ';');
    if semi < |value| then ";" + Scan(value[semi + 1..]) else ""
  }

  /** In a password field the first equals sign is the one that ends the key. */
  lemma FieldHasKey(s: string)
    requires IsPasswordField(s)
    ensures Find(s, '=') == if StartsWith(s, PWD_KEY) then 3 else 8
    ensures |s| > Find(s, '=') && |FieldKey(s)| == Find(s, '=') + 1
  {
    var n := if StartsWith(s, PWD_KEY) then 3 else 8;
    var key := if StartsWith(s, PWD_KEY) then PWD_KEY else PASSWORD_KEY;
    assert ToUpper(s[n]) == key[n];
    assert forall k | 0 <= k < n :: ToUpper(s[k]) == key[k] && key[k] != '=';
    assert s[n] == '=';
  }

  function Sanitize(connStr: string): string {
    if connStr == "" then EMPTY_ANSWER else Scan(connStr)
  }

  lemma ScanCharacter(s: string, i: nat)
    requires i < |s| && !IsPasswordField(s[i..])
    ensures Scan(s[i..]) == [s[i]] + Scan(s[i + 1..])
  {
    hide IsPasswordField;
    assert s[i..][1..] == s[i + 1..];
  }

  lemma ScanAfterValue(s: string, i: nat, j: nat)
    requires i <= |s| && j == i + Find(s[i..], ';')
    ensures AfterValue(s[i..]) == if j < |s| then ";" + Scan(s[j + 1..]) else ""
  {
    hide Scan;
    if j < |s| {
      assert s[i..][j - i + 1..] == s[j + 1..];
    }
  }

  lemma FindIs(s: string, c: char, p: nat)
    requires p <= |s| && (forall k | 0 <= k < p :: s[k] != c) && (p < |s| ==> s[p] == c)
    ensures Find(s, c) == p
  {
  }

  /** The inner loop: skip the value. */
  method SkipValue(s: string, start: nat) returns (i: nat)
    requires start <= |s|
    ensures start <= i <= |s| && i == start + Find(s[start..], ';')
    ensures i < |s| ==> s[i] == ';'
  {
    i := start;
    while i < |s| && s[i] != ';'
      invariant start <= i <= |s|
      invariant forall k | start <= k < i :: s[k] != ';'
    {
      i := i + 1;
    }
    FindIs(s[start..], ';', i - start);
  }

  lemma ScanField(s: string, start: nat, i: nat)
    requires start <= |s| && IsPasswordField(s[start..]) && i == start + Find(s[start..], '=') + 1
    ensures i <= |s| && Scan(s[start..]) == s[start..i] + STARS + AfterValue(s[i..])
  {
    hide IsPasswordField, AfterValue, Find;
    FieldHasKey(s[start..]);
    assert s[start..i] == FieldKey(s[start..]);
    assert s[start..][|FieldKey(s[start..])|..] == s[i..];
  }

  /** One password field: its key, the asterisks, and the semicolon when there is one. */
  method RedactField(connStr: string, start: nat) returns (text: string, i: nat)
    requires start <= |connStr| && IsPasswordField(connStr[start..])
    ensures start < i <= |connStr|
    ensures Scan(connStr[start..]) == text + Scan(connStr[i..])
  {
    hide IsPasswordField, AfterValue, Find, Scan;
    var equalsPos := start + Find(connStr[start..], '=');
    ScanField(connStr, start, equalsPos + 1);
    text := connStr[start..equalsPos + 1];
    i := equalsPos + 1;
    text := text + STARS;
    ghost var redacted := text;
    var semi := SkipValue(connStr, i);
    ScanAfterValue(connStr, i, semi);
    i := semi;
    if i < |connStr| && connStr[i] == ';' {
      text := text + ";";
      i := i + 1;
      assert redacted + (";" + Scan(connStr[i..])) == text + Scan(connStr[i..]);
    } else {
      ScanNothing();
      assert connStr[i..] == "";
    }
  }

  method SanitizeConnectionString(connStr: string) returns (result: string)
    ensures result == Sanitize(connStr)
    ensures connStr == "" ==> result == "(empty connection string)"
  {
    hide Scan, StartsWith;
    if connStr == "" {
      return EMPTY_ANSWER;
    }
    result := "";
    var i := 0;
    assert connStr[0..] == connStr;
    while i < |connStr|
      invariant 0 <= i <= |connStr|
      invariant Scan(connStr) == result + Scan(connStr[i..])
    {
      var rest := connStr[i..];
      var isPwdField := i + 4 <= |connStr| && StartsWith(rest, PWD_KEY);
      if !isPwdField && i + 9 <= |connStr| {
        isPwdField := StartsWith(rest, PASSWORD_KEY);
      }
      ShortIsNoKey(rest);
      if isPwdField {
        var text, next := RedactField(connStr, i);
        result := result + text;
        i := next;
      } else {
        ScanCharacter(connStr, i);
        result := result + [connStr[i]];
        i := i + 1;
      }
    }
    ScanNothing();
    assert connStr[i..] == "" && result + "" == result;
  }

  lemma ScanNothing()
    ensures Scan("") == ""
  {
  }

  lemma ShortIsNoKey(s: string)
    ensures StartsWith(s, PWD_KEY) ==> |s| >= 4
    ensures StartsWith(s, PASSWORD_KEY) ==> |s| >= 9
  {
  }

  // ---------------------------------------------------------------- idempotence

  /** Scanning creates no key: whatever the output starts with, asterisks apart, the input did. */
  lemma {:induction false} OutputStartsLikeInput(t: string, key: string)
    requires '*' !in key && StartsWith(Scan(t), key)
    ensures StartsWith(t, key)
  {
    hide IsPasswordField, AfterValue;
    if t == "" || key == "" {
    } else if IsPasswordField(t) {
      FieldHasKey(t);
      var n := |FieldKey(t)|;
      assert Scan(t)[n] == '*' == ToUpper('*');
      assert forall k | 0 <= k < n :: Scan(t)[k] == t[k];
    } else {
      assert forall k | 0 <= k < |key| - 1 :: Scan(t[1..])[k] == Scan(t)[k + 1] && key[1..][k] == key[k + 1];
      OutputStartsLikeInput(t[1..], key[1..]);
      assert forall k | 1 <= k < |key| :: t[k] == t[1..][k - 1] && key[k] == key[1..][k - 1];
    }
  }

  lemma NoNewField(s: string)
    requires s != "" && !IsPasswordField(s)
    ensures !IsPasswordField(Scan(s))
  {
    if StartsWith(Scan(s), PWD_KEY) { OutputStartsLikeInput(s, PWD_KEY); }
    if StartsWith(Scan(s), PASSWORD_KEY) { OutputStartsLikeInput(s, PASSWORD_KEY); }
  }

  /** Once the key is known, scanning a field depends on nothing but the text after the value. */
  lemma FieldScans(key: string, value: string)
    requires IsPasswordField(key) && Find(key, '=') == |key| - 1
    ensures IsPasswordField(key + value) && FieldKey(key + value) == key
    ensures Scan(key + value) == key + STARS + AfterValue(value)
  {
    hide AfterValue, Find;
    var s := key + value;
    assert forall k | 0 <= k < |key| :: s[k] == key[k];
    FindIs(s, '=', |key| - 1);
    assert s[|key|..] == value && s[..|key|] == key;
  }

  lemma KeyIsField(s: string)
    requires IsPasswordField(s)
    ensures IsPasswordField(FieldKey(s)) && Find(FieldKey(s), '=') == |FieldKey(s)| - 1
  {
    FieldHasKey(s);
    var key := FieldKey(s);
    assert forall k | 0 <= k < |key| :: key[k] == s[k];
    FindIs(key, '=', |key| - 1);
  }

  lemma AfterSkips(value: string, tail: string)
    requires ';' !in value && (tail == "" || tail[0] == ';')
    ensures AfterValue(value + tail) == AfterValue(tail)
    ensures AfterValue(tail) == if tail == "" then "" else ";" + Scan(tail[1..])
  {
    hide Scan;
    var s := value + tail;
    FindIs(s, ';', |value|);
    FindIs(tail, ';', 0);
    if tail != "" { assert s[|value| + 1..] == tail[1..]; }
  }

  lemma {:induction false} ScanIsIdempotent(s: string)
    ensures Scan(Scan(s)) == Scan(s)
    decreases |s|
  {
    if s == "" {
    } else if IsPasswordField(s) {
      hide IsPasswordField, Find, AfterValue;
      FieldHasKey(s);
      KeyIsField(s);
      var key := FieldKey(s);
      var value := s[|key|..];
      assert Scan(s) == key + STARS + AfterValue(value);
      assert key + (STARS + AfterValue(value)) == key + STARS + AfterValue(value);
      FieldScans(key, STARS + AfterValue(value));
      AfterIsIdempotent(value);
    } else {
      hide IsPasswordField;
      NoNewField(s);
      ScanIsIdempotent(s[1..]);
      assert Scan(s)[1..] == Scan(s[1..]);
    }
  }

  lemma {:induction false} AfterIsIdempotent(value: string)
    ensures AfterValue(STARS + AfterValue(value)) == AfterValue(value)
    decreases |value|
  {
    hide Scan;
    var semi := Find(value, ';');
    AfterSkips(STARS, AfterValue(value));
    if semi < |value| {
      ScanIsIdempotent(value[semi + 1..]);
      assert AfterValue(value)[1..] == Scan(value[semi + 1..]);
    }
  }

  lemma {:induction false} NoEqualsUnchanged(s: string)
    requires '=' !in s
    ensures Scan(s) == s
  {
    if s != "" {
      if IsPasswordField(s) { FieldHasKey(s); }
      NoEqualsUnchanged(s[1..]);
    }
  }

  /** Sanitizing a sanitized connection string changes nothing. */
  lemma SanitizeIsIdempotent(s: string)
    ensures Sanitize(Sanitize(s)) == Sanitize(s)
  {
    if s == "" {
      NoEqualsUnchanged(EMPTY_ANSWER);
    } else {
      ScanIsIdempotent(s);
    }
  }

  // ---------------------------------------------------------------- which texts are keys, and what follows them

  predicate Either(c: char, small: char, capital: char) {
    c == small || c == capital
  }

  /** "pwd=" or "password=", each letter small or capital. */
  predicate Written(key: string) {
    || (&& |key| == 4
        && Either(key[0], 'p', 'P') && Either(key[1], 'w', 'W') && Either(key[2], 'd', 'D') && key[3] == '=')
    || (&& |key| == 9
        && Either(key[0], 'p', 'P') && Either(key[1], 'a', 'A') && Either(key[2], 's', 'S') && Either(key[3], 's', 'S')
        && Either(key[4], 'w', 'W') && Either(key[5], 'o', 'O') && Either(key[6], 'r', 'R') && Either(key[7], 'd', 'D')
        && key[8] == '=')
  }

  lemma UpperOf(c: char)
    ensures ToUpper(c) == 'P' <==> Either(c, 'p', 'P')
    ensures ToUpper(c) == 'W' <==> Either(c, 'w', 'W')
    ensures ToUpper(c) == 'D' <==> Either(c, 'd', 'D')
    ensures ToUpper(c) == 'A' <==> Either(c, 'a', 'A')
    ensures ToUpper(c) == 'S' <==> Either(c, 's', 'S')
    ensures ToUpper(c) == 'O' <==> Either(c, 'o', 'O')
    ensures ToUpper(c) == 'R' <==> Either(c, 'r', 'R')
    ensures ToUpper(c) == '=' <==> c == '='
  {
  }

  /** The code's test, on a text as long as the key, is whether the key is written there. */
  lemma KeysAreWritten(key: string)
    ensures |key| == 4 ==> (StartsWith(key, PWD_KEY) <==> Written(key))
    ensures |key| == 9 ==> (StartsWith(key, PASSWORD_KEY) <==> Written(key))
  {
    hide ToUpper, Either;
    if |key| == 4 {
      UpperOf(key[0]); UpperOf(key[1]); UpperOf(key[2]); UpperOf(key[3]);
      assert PWD_KEY[0] == 'P' && PWD_KEY[1] == 'W' && PWD_KEY[2] == 'D' && PWD_KEY[3] == '=';
    } else if |key| == 9 {
      UpperOf(key[0]); UpperOf(key[1]); UpperOf(key[2]); UpperOf(key[3]); UpperOf(key[4]);
      UpperOf(key[5]); UpperOf(key[6]); UpperOf(key[7]); UpperOf(key[8]);
      assert PASSWORD_KEY[0] == 'P' && PASSWORD_KEY[1] == 'A' && PASSWORD_KEY[2] == 'S' && PASSWORD_KEY[3] == 'S';
      assert PASSWORD_KEY[4] == 'W' && PASSWORD_KEY[5] == 'O' && PASSWORD_KEY[6] == 'R' && PASSWORD_KEY[7] == 'D';
      assert PASSWORD_KEY[8] == '=';
    }
  }

  /** A key is written at the start of `s`. */
  predicate WrittenAt(s: string) {
    (|s| >= 4 && Written(s[..4])) || (|s| >= 9 && Written(s[..9]))
  }

  lemma FieldsAreWritten(s: string)
    ensures IsPasswordField(s) <==> WrittenAt(s)
    ensures StartsWith(s, PWD_KEY) <==> |s| >= 4 && Written(s[..4])
    ensures StartsWith(s, PASSWORD_KEY) <==> |s| >= 9 && Written(s[..9])
  {
    hide ToUpper, Written;
    if |s| >= 4 { KeysAreWritten(s[..4]); StartIsLocal(s, PWD_KEY); }
    if |s| >= 9 { KeysAreWritten(s[..9]); StartIsLocal(s, PASSWORD_KEY); }
  }

  lemma StartIsLocal(s: string, word: string)
    requires |word| <= |s|
    ensures StartsWith(s, word) <==> StartsWith(s[..|word|], word)
  {
    hide ToUpper;
    assert forall k | 0 <= k < |word| :: s[..|word|][k] == s[k];
  }

  /** No key is written in `s` that starts in its first n characters. */
  predicate NoKeyIn(s: string, n: nat)
    requires n <= |s|
  {
    forall i | 0 <= i < n :: !WrittenAt(s[i..])
  }

  /** Text in which no key is written is copied as it is. */
  lemma {:induction false} CopiedWithoutKey(s: string)
    requires NoKeyIn(s, |s|)
    ensures Scan(s) == s
  {
    hide IsPasswordField, WrittenAt;
    if s != "" {
      FieldsAreWritten(s);
      assert s[0..] == s;
      forall i | 0 <= i < |s| - 1 ensures !WrittenAt(s[1..][i..]) { assert s[1..][i..] == s[i + 1..]; }
      CopiedWithoutKey(s[1..]);
    }
  }

  /** The first key written is kept, its value becomes eight asterisks, and scanning goes on after the semicolon. */
  lemma {:induction false} MaskedAfterKey(before: string, key: string, value: string, tail: string)
    requires Written(key) && NoKeyIn(before + key, |before|)
    requires ';' !in value && (tail == "" || tail[0] == ';')
    ensures Scan(before + key + value + tail)
         == before + key + "********" + (if tail == "" then "" else ";" + Scan(tail[1..]))
    decreases |before|
  {
    hide IsPasswordField, WrittenAt, Written, Scan;
    if before == "" {
      assert before + key == key;
      MaskedAtKey(key, value, tail);
    } else {
      NoFieldBefore(before, key, value + tail);
      assert before + key + (value + tail) == before + key + value + tail;
      FieldsAreWritten(before + key + value + tail);
      OneLess(before, key, value, tail);
      NoKeyInRest(before, key);
      MaskedAfterKey(before[1..], key, value, tail);
      Rejoined(before, key + "********" + (if tail == "" then "" else ";" + Scan(tail[1..])));
      Regrouped(before, key, tail);
      Regrouped(before[1..], key, tail);
    }
  }

  lemma Regrouped(before: string, key: string, tail: string)
    ensures (var rest := if tail == "" then "" else ";" + Scan(tail[1..]);
             before + key + "********" + rest == before + (key + "********" + rest))
  {
    hide Scan;
  }

  lemma Rejoined(before: string, x: string)
    requires before != ""
    ensures [before[0]] + (before[1..] + x) == before + x
  {
  }

  lemma NoKeyInRest(before: string, key: string)
    requires before != "" && NoKeyIn(before + key, |before|)
    ensures NoKeyIn(before[1..] + key, |before| - 1)
  {
    hide WrittenAt;
    forall i | 0 <= i < |before| - 1 ensures !WrittenAt((before[1..] + key)[i..]) {
      assert (before[1..] + key)[i..] == (before + key)[i + 1..];
    }
  }

  lemma OneLess(before: string, key: string, value: string, tail: string)
    requires before != "" && !IsPasswordField(before + key + value + tail)
    ensures Scan(before + key + value + tail) == [before[0]] + Scan(before[1..] + key + value + tail)
  {
    hide IsPasswordField, AfterValue, FieldKey;
    assert (before + key + value + tail)[1..] == before[1..] + key + value + tail;
  }

  lemma MaskedAtKey(key: string, value: string, tail: string)
    requires Written(key) && ';' !in value && (tail == "" || tail[0] == ';')
    ensures Scan(key + value + tail) == key + "********" + (if tail == "" then "" else ";" + Scan(tail[1..]))
  {
    hide IsPasswordField, Written, Scan, AfterValue, Find;
    WrittenIsKey(key);
    FieldScans(key, value + tail);
    AfterSkips(value, tail);
    assert key + value + tail == key + (value + tail);
  }

  lemma WrittenIsKey(key: string)
    requires Written(key)
    ensures IsPasswordField(key) && Find(key, '=') == |key| - 1
  {
    hide StartsWith, Find, Written;
    KeysAreWritten(key);
    LastEquals(key);
    FindIs(key, '=', |key| - 1);
  }

  lemma LastEquals(key: string)
    requires Written(key)
    ensures (|key| == 4 || |key| == 9) && key[|key| - 1] == '=' && forall k | 0 <= k < |key| - 1 :: key[k] != '='
  {
  }

  /** A key that starts before the first one ends cannot reach past it: it has no equals sign but its last. */
  lemma NoFieldBefore(before: string, key: string, x: string)
    requires Written(key) && before != "" && NoKeyIn(before + key, |before|)
    ensures !WrittenAt(before + key + x)
  {
    hide Either;
    var s, h := before + key + x, before + key;
    var e := |h| - 1;
    assert h[0..] == h && !WrittenAt(h);
    assert s[e] == h[e] == key[|key| - 1] == '=';
    EqualsEnds(s, 4, e);
    EqualsEnds(s, 9, e);
    if |h| >= 4 { assert s[..4] == h[..4]; }
    if |h| >= 9 { assert s[..9] == h[..9]; }
  }

  lemma EqualsEnds(s: string, n: nat, e: nat)
    requires n <= 9 && e < |s| && s[e] == '='
    ensures n <= |s| && Written(s[..n]) ==> n <= e + 1
  {
    if n <= |s| && Written(s[..n]) && e < n {
      var w := s[..n];
      assert w[e] == '=';
    }
  }

  /** In particular behind any text without an equals sign. */
  lemma MaskedAfterPlainText(before: string, key: string, value: string, tail: string)
    requires Written(key) && '=' !in before
    requires ';' !in value && (tail == "" || tail[0] == ';')
    ensures Scan(before + key + value + tail)
         == before + key + "********" + (if tail == "" then "" else ";" + Scan(tail[1..]))
  {
    hide Scan;
    PlainTextHasNoKey(before, key);
    MaskedAfterKey(before, key, value, tail);
  }

  lemma PlainTextHasNoKey(before: string, key: string)
    requires Written(key) && '=' !in before
    ensures NoKeyIn(before + key, |before|)
  {
    var s := before + key;
    forall i | 0 <= i < |before| ensures !WrittenAt(s[i..]) {
      OnlyOneEnds(before, key, i, 4);
      OnlyOneEnds(before, key, i, 9);
    }
  }

  /** Two keys that end at the same place start at the same place. */
  lemma OnlyOneEnds(before: string, key: string, i: nat, n: nat)
    requires Written(key) && '=' !in before && i < |before| && (n == 4 || n == 9)
    ensures i + n <= |before + key| ==> !Written((before + key)[i..][..n])
  {
    var s := before + key;
    if i + n <= |s| {
      var w := s[i..][..n];
      assert forall k | 0 <= k < n :: w[k] == s[i + k];
      assert forall k | 0 <= k < |key| :: s[|before| + k] == key[k];
      assert i + n == |s| && n == 9 && |key| == 4 ==> w[5] == key[0];
    }
  }

  // ---------------------------------------------------------------- the password is not in the answer

  /** `h` ends in a password key of `n` characters, written in any case. */
  predicate EndsInKey(h: string, n: nat) {
    4 <= n <= |h| && Written(h[|h| - n..])
  }

  lemma KeyShape(key: string)
    requires Written(key)
    ensures IsPasswordField(key) && ';' !in key && key[|key| - 1] == '='
  {
    hide StartsWith;
    KeysAreWritten(key);
  }

  lemma DropKeepsKey(h: string, n: nat, i: nat)
    requires EndsInKey(h, n) && i + n <= |h|
    ensures EndsInKey(h[i..], n)
  {
    hide Written;
    assert h[i..][|h| - i - n..] == h[|h| - n..];
  }

  lemma SemicolonIsBeforeKey(h: string, n: nat, k: nat)
    requires EndsInKey(h, n) && k < |h| && h[k] == ';'
    ensures k + 1 + n <= |h|
  {
    KeyShape(h[|h| - n..]);
    assert forall j | |h| - n <= j < |h| :: h[j] == h[|h| - n..][j - (|h| - n)];
  }

  /** A field that starts `h` is recognised without looking past the key `h` ends in. */
  lemma MatchEndsByKey(h: string, n: nat, x: string, word: string)
    requires EndsInKey(h, n) && (word == PWD_KEY || word == PASSWORD_KEY)
    ensures StartsWith(h + x, word) <==> StartsWith(h, word)
  {
    KeyShape(h[|h| - n..]);
    hide Written;
    assert h[|h| - 1] == h[|h| - n..][n - 1] == '=';
    var s := h + x;
    assert forall k | 0 <= k < |h| :: s[k] == h[k];
    assert forall k | 0 <= k < |word| - 1 :: word[k] != '=';
  }

  lemma FieldEndsByKey(h: string, n: nat, x: string)
    requires EndsInKey(h, n)
    ensures IsPasswordField(h + x) <==> IsPasswordField(h)
    ensures |h| == n ==> IsPasswordField(h)
  {
    MatchEndsByKey(h, n, x, PWD_KEY);
    MatchEndsByKey(h, n, x, PASSWORD_KEY);
    if |h| == n { KeyShape(h[0..]); assert h[0..] == h; }
  }

  /** The value after a key at the end of `h` does not reach the output, whatever precedes the key. */
  lemma {:induction false} ScanHidesValue(h: string, n: nat, value: string, tail: string)
    requires EndsInKey(h, n) && ';' !in value && (tail == "" || tail[0] == ';')
    ensures Scan(h + (value + tail)) == Scan(h + tail)
    decreases |h|, 1
  {
    hide IsPasswordField, Written, AfterValue, Find;
    FieldEndsByKey(h, n, value + tail);
    FieldEndsByKey(h, n, tail);
    if IsPasswordField(h) {
      FieldInPrefix(h, value + tail);
      FieldInPrefix(h, tail);
      hide Scan;
      RestHidesValue(h, n, |FieldKey(h)|, value, tail);
    } else {
      DropKeepsKey(h, n, 1);
      ScanHidesValue(h[1..], n, value, tail);
      assert (h + (value + tail))[1..] == h[1..] + (value + tail);
      assert (h + tail)[1..] == h[1..] + tail;
    }
  }

  lemma FieldInPrefix(h: string, x: string)
    requires IsPasswordField(h)
    ensures |FieldKey(h)| <= |h|
    ensures Scan(h + x) == FieldKey(h) + STARS + AfterValue(h[|FieldKey(h)|..] + x)
  {
    hide IsPasswordField, Scan, AfterValue, Find;
    KeyIsField(h);
    FieldHasKey(h);
    var key := FieldKey(h);
    FieldScans(key, h[|key|..] + x);
    assert h + x == key + (h[|key|..] + x);
  }

  /** The same for the text `h[i..]` after the key of an earlier field. */
  lemma {:induction false} RestHidesValue(h: string, n: nat, i: nat, value: string, tail: string)
    requires EndsInKey(h, n) && ';' !in value && (tail == "" || tail[0] == ';')
    requires i <= |h|
    ensures AfterValue(h[i..] + (value + tail)) == AfterValue(h[i..] + tail)
    decreases |h|, 0
  {
    hide EndsInKey, AfterValue, Scan;
    var r := h[i..];
    var semi := Find(r, ';');
    if semi == |r| {
      AfterSkips(r + value, tail);
      AfterSkips(r, tail);
      assert r + value + tail == r + (value + tail);
    } else {
      var j := i + semi + 1;
      SemicolonIsBeforeKey(h, n, i + semi);
      DropKeepsKey(h, n, j);
      ScanHidesValue(h[j..], n, value, tail);
      AfterSemicolon(r, semi, value + tail);
      AfterSemicolon(r, semi, tail);
      assert r[semi + 1..] == h[j..];
    }
  }

  lemma AfterSemicolon(r: string, semi: nat, x: string)
    requires semi == Find(r, ';') < |r|
    ensures AfterValue(r + x) == ";" + Scan(r[semi + 1..] + x)
  {
    hide Scan;
    FindIs(r + x, ';', semi);
    assert (r + x)[semi + 1..] == r[semi + 1..] + x;
  }

  /** The answer does not depend on the password: any two ';'-free values give the same string. */
  lemma PasswordIsHidden(h: string, n: nat, v1: string, v2: string, tail: string)
    requires EndsInKey(h, n) && ';' !in v1 && ';' !in v2
    requires tail == "" || tail[0] == ';'
    ensures Sanitize(h + v1 + tail) == Sanitize(h + v2 + tail)
  {
    hide Scan;
    ScanHidesValue(h, n, v1, tail);
    ScanHidesValue(h, n, v2, tail);
    assert h + v1 + tail == h + (v1 + tail) && h + v2 + tail == h + (v2 + tail);
  }
}
