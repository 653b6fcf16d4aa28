/** The daemon's configuration file (server/sttd_config.c). */
module Config {
  import opened Types

  datatype Conf = Conf(engineId: Option<string>, language: Option<string>,
                       silence: int, profanity: int, punctuation: int)

  const INITIAL := Conf(None, None, 1, 0, 0)

  // ---- Printing ----

  /** How the C library's %s renders a string pointer. */
  function StringText(s: Option<string>): string {
    if s.Some? then s.value else "(null)"
  }

  function Digits(n: nat): (s: string)
    ensures s != "" && forall i :: 0 <= i < |s| ==> IsDigit(s[i])
    ensures Value(s) == n
  {
    var d := [('0' as int + n % 10) as char];
    if n < 10 then d
    else
      ValueOfConcat(Digits(n / 10), d);
      Digits(n / 10) + d
  }

  function Decimal(n: int): string {
    if n < 0 then "-" + Digits(-n) else Digits(n)
  }

  const KEYS := ["ENGINE_ID", "LANGUAGE", "SILENCE", "PROFANITY", "PUNCTUATION"]

  function PrintWith(keys: seq<string>, c: Conf): string
    requires |keys| == 5
  {
    keys[0] + " " + StringText(c.engineId) + "\n" +
    (keys[1] + " " + StringText(c.language) + "\n" +
     (keys[2] + " " + Decimal(c.silence) + "\n" +
      (keys[3] + " " + Decimal(c.profanity) + "\n" +
       (keys[4] + " " + Decimal(c.punctuation) + "\n"))))
  }

  function Print(c: Conf): string {
    PrintWith(KEYS, c)
  }

  // ---- Scanning ----

  predicate IsSpace(c: char) {
    c == ' ' || '\t' <= c <= '\r'
  }

  predicate IsDigit(c: char) {
    '0' <= c <= '9'
  }

  function Value(s: string): (v: nat)
    requires forall i :: 0 <= i < |s| ==> IsDigit(s[i])
  {
    if s == "" then 0
    else
      var last := s[|s| - 1];
      assert IsDigit(last);
      10 * Value(s[..|s| - 1]) + (last as int - '0' as int)
  }

  lemma ValueOfConcat(s: string, d: string)
    requires |d| == 1 && IsDigit(d[0])
    requires forall i :: 0 <= i < |s| ==> IsDigit(s[i])
    ensures Value(s + d) == 10 * Value(s) + (d[0] as int - '0' as int)
  {
    assert (s + d)[..|s + d| - 1] == s;
  }

  function SkipSpace(s: string): (r: string)
    ensures |r| <= |s| && (r != "" ==> !IsSpace(r[0]))
  {
    if s != "" && IsSpace(s[0]) then SkipSpace(s[1..]) else s
  }

  /** Length of the leading run of non-space characters. */
  function WordLength(s: string): (n: nat)
    ensures n <= |s|
    ensures forall i :: 0 <= i < n ==> !IsSpace(s[i])
    ensures n < |s| ==> IsSpace(s[n])
  {
    if s == "" || IsSpace(s[0]) then 0 else 1 + WordLength(s[1..])
  }

  function DigitLength(s: string): (n: nat)
    ensures n <= |s|
    ensures forall i :: 0 <= i < n ==> IsDigit(s[i])
    ensures n < |s| ==> !IsDigit(s[n])
  {
    if s == "" || !IsDigit(s[0]) then 0 else 1 + DigitLength(s[1..])
  }

  /** The conversion behind %d: through a 64-bit long that saturates, then cut to 32 bits. */
  function ToInt32(v: int): (r: int)
    ensures -0x8000_0000 <= r < 0x8000_0000
    ensures -0x8000_0000 <= v < 0x8000_0000 ==> r == v
  {
    var long := if v > 0x7FFF_FFFF_FFFF_FFFF then 0x7FFF_FFFF_FFFF_FFFF
                else if v < -0x8000_0000_0000_0000 then -0x8000_0000_0000_0000 else v;
    (long + 0x8000_0000) % 0x1_0000_0000 - 0x8000_0000
  }

  /** The two buffers, the integer and the unread text; a failed conversion leaves its target alone. */
  datatype Scan = Scan(id: string, param: string, num: int, rest: string)

  /** One `%s %s`. */
  function ReadStrings(sc: Scan): Scan {
    var t := SkipSpace(sc.rest);
    var n := WordLength(t);
    var u := SkipSpace(t[n..]);
    var m := WordLength(u);
    if t == "" then sc.(rest := "")
    else if u == "" then sc.(id := t[..n], rest := "")
    else sc.(id := t[..n], param := u[..m], rest := u[m..])
  }

  function SignLength(s: string): (n: nat)
    ensures n <= |s|
  {
    if s != "" && (s[0] == '-' || s[0] == '+') then 1 else 0
  }

  /** One `%s %d`; on a mismatch the word stays unread, save for a sign already taken. */
  function ReadNumber(sc: Scan): Scan {
    var t := SkipSpace(sc.rest);
    var n := WordLength(t);
    var u := SkipSpace(t[n..]);
    var sign := SignLength(u);
    var m := DigitLength(u[sign..]);
    if t == "" then sc.(rest := "")
    else if m == 0 then sc.(id := t[..n], rest := u[sign..])
    else
      var v: int := Value(u[sign..][..m]);
      sc.(id := t[..n], num := ToInt32(if u[0] == '-' then -v else v), rest := u[sign..][m..])
  }

  /** The accepted prefix of five reads, over `c`, and whether it is all of them. */
  function Collect(keys: seq<string>, c: Conf, s1: Scan, s2: Scan, s3: Scan, s4: Scan, s5: Scan): (Conf, bool)
    requires |keys| == 5
  {
    if !(keys[0] <= s1.id) then (c, false) else
    var c1 := c.(engineId := Some(s1.param));
    if !(keys[1] <= s2.id) then (c1, false) else
    var c2 := c1.(language := Some(s2.param));
    if !(keys[2] <= s3.id) then (c2, false) else
    var c3 := c2.(silence := s3.num);
    if !(keys[3] <= s4.id) then (c3, false) else
    var c4 := c3.(profanity := s4.num);
    if !(keys[4] <= s5.id) then (c4, false) else
    (c4.(punctuation := s5.num), true)
  }

  /** How many of the keys are met before the first that is not. */
  function Met(keys: seq<string>, ids: seq<string>): (n: nat)
    requires |keys| == |ids|
    ensures n <= |keys|
    ensures forall i :: 0 <= i < n ==> keys[i] <= ids[i]
    ensures n < |keys| ==> !(keys[n] <= ids[n])
  {
    if keys == [] || !(keys[0] <= ids[0]) then 0 else 1 + Met(keys[1..], ids[1..])
  }

  /** A field is taken exactly when its key and all keys before it are met, and kept otherwise. */
  lemma CollectsPrefix(keys: seq<string>, c: Conf, s1: Scan, s2: Scan, s3: Scan, s4: Scan, s5: Scan)
    requires |keys| == 5
    ensures var (r, complete) := Collect(keys, c, s1, s2, s3, s4, s5);
      var n := Met(keys, [s1.id, s2.id, s3.id, s4.id, s5.id]);
      && r.engineId == (if n > 0 then Some(s1.param) else c.engineId)
      && r.language == (if n > 1 then Some(s2.param) else c.language)
      && r.silence == (if n > 2 then s3.num else c.silence)
      && r.profanity == (if n > 3 then s4.num else c.profanity)
      && r.punctuation == (if n > 4 then s5.num else c.punctuation)
      && (complete <==> n == 5)
  {
    hide Met;
    var ids := [s1.id, s2.id, s3.id, s4.id, s5.id];
    var n := Met(keys, ids);
    assert n > 0 ==> keys[0] <= ids[0];
    assert n > 1 ==> keys[1] <= ids[1];
    assert n > 2 ==> keys[2] <= ids[2];
    assert n > 3 ==> keys[3] <= ids[3];
    assert n > 4 ==> keys[4] <= ids[4];
  }

  /** What loading `text` over `c` yields, and whether all five keys were accepted. */
  function ParseWith(keys: seq<string>, c: Conf, text: string): (Conf, bool)
    requires |keys| == 5
  {
    var s1 := ReadStrings(Scan("", "", 0, text));
    var s2 := ReadStrings(s1);
    var s3 := ReadNumber(s2);
    var s4 := ReadNumber(s3);
    Collect(keys, c, s1, s2, s3, s4, ReadNumber(s4))
  }

  function Parse(c: Conf, text: string): (Conf, bool) {
    ParseWith(KEYS, c, text)
  }

  // ---- Round trip ----

  ghost predicate IsWord(s: string) {
    s != "" && forall i :: 0 <= i < |s| ==> !IsSpace(s[i])
  }

  predicate Fits(n: int) {
    -0x8000_0000 <= n < 0x8000_0000
  }

  ghost predicate Printable(c: Conf) {
    && c.engineId.Some? && IsWord(c.engineId.value)
    && c.language.Some? && IsWord(c.language.value)
    && Fits(c.silence) && Fits(c.profanity) && Fits(c.punctuation)
  }

  lemma SkipsNothing(w: string, r: string)
    requires IsWord(w)
    ensures SkipSpace(w + r) == w + r
  {
    assert (w + r)[0] == w[0];
  }

  lemma {:induction false} WordEnds(w: string, r: string)
    requires forall i :: 0 <= i < |w| ==> !IsSpace(w[i])
    requires r == "" || IsSpace(r[0])
    ensures WordLength(w + r) == |w|
  {
    if w == "" {
      assert w + r == r;
    } else {
      assert (w + r)[1..] == w[1..] + r;
      assert (w + r)[0] == w[0];
      WordEnds(w[1..], r);
    }
  }

  lemma {:induction false} DigitsEnd(w: string, r: string)
    requires forall i :: 0 <= i < |w| ==> IsDigit(w[i])
    requires r == "" || IsSpace(r[0])
    ensures DigitLength(w + r) == |w|
  {
    if w == "" {
      assert w + r == r;
    } else {
      assert (w + r)[1..] == w[1..] + r;
      assert (w + r)[0] == w[0];
      DigitsEnd(w[1..], r);
    }
  }

  lemma SkipsLead(lead: string, t: string)
    requires lead == "" || lead == "\n"
    ensures SkipSpace(lead + t) == SkipSpace(t)
  {
    if lead == "\n" {
      assert (lead + t)[1..] == t;
    } else {
      assert lead + t == t;
    }
  }

  /** The key and the text behind it, as both readers first see them. */
  lemma ReadsKey(lead: string, key: string, w: string)
    requires lead == "" || lead == "\n"
    requires IsWord(key) && w != "" && !IsSpace(w[0])
    ensures var t := SkipSpace(lead + (key + (" " + w)));
      WordLength(t) == |key| && t[..|key|] == key && SkipSpace(t[|key|..]) == w
  {
    var t := key + (" " + w);
    SkipsLead(lead, t);
    SkipsNothing(key, " " + w);
    WordEnds(key, " " + w);
    assert t[|key|..] == " " + w;
    assert (" " + w)[1..] == w;
  }

  lemma ReadsString(sc: Scan, lead: string, key: string, v: string, r: string)
    requires lead == "" || lead == "\n"
    requires IsWord(key) && IsWord(v) && r != "" && r[0] == '\n'
    requires sc.rest == lead + (key + " " + v + r)
    ensures ReadStrings(sc) == Scan(key, v, sc.num, r)
  {
    KeyThen(key, v, r);
    assert (v + r)[0] == v[0];
    ReadsKey(lead, key, v + r);
    WordEnds(v, r);
    assert (v + r)[..|v|] == v && (v + r)[|v|..] == r;
  }

  lemma SignedText(ds: string, negative: bool, r: string)
    requires ds != "" && forall i :: 0 <= i < |ds| ==> IsDigit(ds[i])
    requires r != "" && r[0] == '\n'
    ensures var w := if negative then "-" + ds else ds; var u := w + r; var sign := SignLength(u);
      && IsWord(w) && (u[0] == '-' <==> negative)
      && u[sign..] == ds + r && DigitLength(ds + r) == |ds|
      && (ds + r)[..|ds|] == ds && (ds + r)[|ds|..] == r
  {
    assert IsDigit(ds[0]);
    DigitsEnd(ds, r);
    DigitsAreWord(ds);
    if negative {
      var u := "-" + ds + r;
      assert u[0] == '-' && u[1..] == ds + r;
    } else {
      assert (ds + r)[0] == ds[0] && (ds + r)[0..] == ds + r;
    }
  }

  lemma DigitsAreWord(ds: string)
    requires ds != "" && forall i :: 0 <= i < |ds| ==> IsDigit(ds[i])
    ensures IsWord(ds) && IsWord("-" + ds)
  {
    assert forall i :: 0 <= i < |ds| ==> ("-" + ds)[i + 1] == ds[i];
    forall i | 0 <= i < |"-" + ds| ensures !IsSpace(("-" + ds)[i]) {
      if i > 0 { assert ("-" + ds)[i] == ds[i - 1]; }
    }
  }

  lemma KeyThen(key: string, v: string, r: string)
    ensures key + " " + v + r == key + (" " + (v + r))
  {
  }

  lemma ReadsInteger(sc: Scan, key: string, v: int, r: string)
    requires IsWord(key) && Fits(v) && r != "" && r[0] == '\n'
    requires sc.rest == "\n" + (key + " " + Decimal(v) + r)
    ensures ReadNumber(sc) == Scan(key, sc.param, v, r)
  {
    var w := Decimal(v);
    KeyThen(key, w, r);
    SignedText(if v < 0 then Digits(-v) else Digits(v), v < 0, r);
    assert (w + r)[0] == w[0];
    ReadsKey("\n", key, w + r);
  }

  ghost predicate GoodKeys(keys: seq<string>) {
    |keys| == 5 && (forall i :: 0 <= i < 5 ==> IsWord(keys[i])) && keys[0][0] != keys[1][0]
  }

  lemma KeysAreGood()
    ensures GoodKeys(KEYS)
  {
  }

  /** The five reads over a printed configuration. */
  lemma ReadsAll(keys: seq<string>, c: Conf, text: string)
    requires GoodKeys(keys) && Printable(c) && text == PrintWith(keys, c)
    ensures var s1 := ReadStrings(Scan("", "", 0, text)); var s2 := ReadStrings(s1);
      var s3 := ReadNumber(s2); var s4 := ReadNumber(s3); var s5 := ReadNumber(s4);
      && s1.id == keys[0] && Some(s1.param) == c.engineId && s2.id == keys[1] && Some(s2.param) == c.language
      && s3.id == keys[2] && s3.num == c.silence && s4.id == keys[3] && s4.num == c.profanity
      && s5.id == keys[4] && s5.num == c.punctuation
  {
    var t5 := keys[4] + " " + Decimal(c.punctuation) + "\n";
    var t4 := keys[3] + " " + Decimal(c.profanity) + ("\n" + t5);
    var t3 := keys[2] + " " + Decimal(c.silence) + ("\n" + t4);
    var t2 := keys[1] + " " + c.language.value + ("\n" + t3);
    var t1 := keys[0] + " " + c.engineId.value + ("\n" + t2);
    Regroup(keys[3] + " " + Decimal(c.profanity), t5);
    Regroup(keys[2] + " " + Decimal(c.silence), t4);
    Regroup(keys[1] + " " + c.language.value, t3);
    Regroup(keys[0] + " " + c.engineId.value, t2);
    var s0 := Scan("", "", 0, text);
    assert s0.rest == "" + t1;
    ReadsString(s0, "", keys[0], c.engineId.value, "\n" + t2);
    var s1 := ReadStrings(s0);
    ReadsString(s1, "\n", keys[1], c.language.value, "\n" + t3);
    var s2 := ReadStrings(s1);
    ReadsInteger(s2, keys[2], c.silence, "\n" + t4);
    var s3 := ReadNumber(s2);
    ReadsInteger(s3, keys[3], c.profanity, "\n" + t5);
    ReadsInteger(ReadNumber(s3), keys[4], c.punctuation, "\n");
  }

  lemma CollectsAll(keys: seq<string>, c: Conf, over: Conf, s1: Scan, s2: Scan, s3: Scan, s4: Scan, s5: Scan)
    requires |keys| == 5
    requires s1.id == keys[0] && s2.id == keys[1] && s3.id == keys[2] && s4.id == keys[3] && s5.id == keys[4]
    requires Some(s1.param) == c.engineId && Some(s2.param) == c.language
    requires s3.num == c.silence && s4.num == c.profanity && s5.num == c.punctuation
    ensures Collect(keys, over, s1, s2, s3, s4, s5) == (c, true)
  {
  }

  lemma RoundTripWith(keys: seq<string>, c: Conf, over: Conf)
    requires GoodKeys(keys) && Printable(c)
    ensures ParseWith(keys, over, PrintWith(keys, c)) == (c, true)
  {
    var text := PrintWith(keys, c);
    ReadsAll(keys, c, text);
    var s1 := ReadStrings(Scan("", "", 0, text));
    var s2 := ReadStrings(s1);
    var s3 := ReadNumber(s2);
    var s4 := ReadNumber(s3);
    CollectsAll(keys, c, over, s1, s2, s3, s4, ReadNumber(s4));
  }

  /** Loading what was saved restores all five fields, over any earlier values. */
  lemma RoundTrip(c: Conf, over: Conf)
    requires Printable(c)
    ensures Parse(over, Print(c)) == (c, true)
  {
    KeysAreGood();
    RoundTripWith(KEYS, c, over);
  }

  lemma Regroup(a: string, b: string)
    ensures a + "\n" + b == a + ("\n" + b)
  {
  }

  // ---- Repair ----

  lemma ReadStringsMoves(sc: Scan)
    ensures (ReadStrings(sc).rest == "" && ReadStrings(sc).param == sc.param) || IsWord(ReadStrings(sc).param)
    ensures sc.rest == "" ==> ReadStrings(sc).id == sc.id
    ensures Fits(sc.num) ==> Fits(ReadNumber(sc).num)
  {
  }

  lemma CollectedIsPrintable(keys: seq<string>, s1: Scan, s2: Scan, s3: Scan, s4: Scan, s5: Scan)
    requires |keys| == 5
    requires keys[0] <= s1.id && keys[1] <= s2.id ==> IsWord(s1.param) && IsWord(s2.param)
    requires Fits(s3.num) && Fits(s4.num) && Fits(s5.num)
    ensures var c := Collect(keys, INITIAL, s1, s2, s3, s4, s5).0;
      c.engineId.Some? && c.language.Some? ==> Printable(c)
  {
  }

  /** Two keys with different first letters cannot both be met once the text has run out. */
  lemma BothStringsAreWords(text: string, key1: string, key2: string)
    requires key1 != "" && key2 != "" && key1[0] != key2[0]
    ensures var s1 := ReadStrings(Scan("", "", 0, text)); var s2 := ReadStrings(s1);
      key1 <= s1.id && key2 <= s2.id ==> IsWord(s1.param) && IsWord(s2.param)
  {
    var s0 := Scan("", "", 0, text);
    ReadStringsMoves(s0);
    ReadStringsMoves(ReadStrings(s0));
  }

  lemma NumbersFit(s2: Scan)
    requires Fits(s2.num)
    ensures var s3 := ReadNumber(s2); var s4 := ReadNumber(s3);
      Fits(s3.num) && Fits(s4.num) && Fits(ReadNumber(s4).num)
  {
    ReadStringsMoves(s2);
    ReadStringsMoves(ReadNumber(s2));
    ReadStringsMoves(ReadNumber(ReadNumber(s2)));
  }

  /** Whatever the text, once both strings were taken the configuration can be printed and read back. */
  lemma LoadedIsPrintable(keys: seq<string>, text: string)
    requires GoodKeys(keys)
    ensures var c := ParseWith(keys, INITIAL, text).0;
      c.engineId.Some? && c.language.Some? ==> Printable(c)
  {
    BothStringsAreWords(text, keys[0], keys[1]);
    var s1 := ReadStrings(Scan("", "", 0, text));
    var s2 := ReadStrings(s1);
    NumbersFit(s2);
    var s3 := ReadNumber(s2);
    var s4 := ReadNumber(s3);
    CollectedIsPrintable(keys, s1, s2, s3, s4, ReadNumber(s4));
  }

  /** The file a start-up leaves behind: rewritten unless every key was accepted. */
  function FileAfterWith(keys: seq<string>, text: string): string
    requires |keys| == 5
  {
    var (c, complete) := ParseWith(keys, INITIAL, text);
    if complete then text else PrintWith(keys, c)
  }

  /** A repaired file loads to the configuration the damaged one gave, so repair happens at most once. */
  lemma RepairIsIdempotent(keys: seq<string>, text: string)
    requires GoodKeys(keys)
    ensures var c := ParseWith(keys, INITIAL, text).0;
      c.engineId.Some? && c.language.Some? ==>
        && ParseWith(keys, INITIAL, FileAfterWith(keys, text)) == (c, true)
        && FileAfterWith(keys, FileAfterWith(keys, text)) == FileAfterWith(keys, text)
  {
    var (c, complete) := ParseWith(keys, INITIAL, text);
    LoadedIsPrintable(keys, text);
    if c.engineId.Some? && c.language.Some? && !complete {
      RoundTripWith(keys, c, INITIAL);
    }
  }

  /** A missing string is printed as "(null)", so it comes back as that word. */
  lemma MissingStringsComeBackDifferent(keys: seq<string>, c: Conf)
    requires GoodKeys(keys)
    requires c.engineId.None? ==> c.language.None?
    requires c.language.None? && c.silence == 1 && c.profanity == 0 && c.punctuation == 0
    requires c.engineId.Some? && c.engineId.value != "" ==> IsWord(c.engineId.value)
    ensures ParseWith(keys, INITIAL, PrintWith(keys, c)).0 != c
  {
    if c.engineId == Some("") {
      EmptyParamIsReplaced(keys[0], keys[1] + " " + StringText(c.language) + "\n" +
        (keys[2] + " " + Decimal(c.silence) + "\n" + (keys[3] + " " + Decimal(c.profanity) + "\n" +
        (keys[4] + " " + Decimal(c.punctuation) + "\n"))), keys[1][0]);
      var s1 := ReadStrings(Scan("", "", 0, PrintWith(keys, c)));
      var s2 := ReadStrings(s1);
      var s3 := ReadNumber(s2);
      var s4 := ReadNumber(s3);
      CollectEngine(keys, s1, s2, s3, s4, ReadNumber(s4));
    } else {
      var d := c.(engineId := Some(StringText(c.engineId)), language := Some("(null)"));
      RoundTripWith(keys, d, INITIAL);
    }
  }

  lemma CollectEngine(keys: seq<string>, s1: Scan, s2: Scan, s3: Scan, s4: Scan, s5: Scan)
    requires |keys| == 5
    ensures var c := Collect(keys, INITIAL, s1, s2, s3, s4, s5).0;
      c.engineId == if keys[0] <= s1.id then Some(s1.param) else None
  {
  }

  /** With nothing between the key and the line end, the next line's key is taken for the value. */
  lemma EmptyParamIsReplaced(key: string, next: string, first: char)
    requires IsWord(key) && next != "" && next[0] == first && !IsSpace(first)
    ensures ReadStrings(Scan("", "", 0, key + " " + "" + "\n" + next)).param != ""
  {
    var t := key + " " + "" + "\n" + next;
    var tail := " \n" + next;
    assert t == key + tail;
    SkipsNothing(key, tail);
    WordEnds(key, tail);
    assert t[|key|..] == tail;
    assert tail[1..] == "\n" + next && ("\n" + next)[1..] == next;
    assert SkipSpace("\n" + next) == SkipSpace(next) == next;
    assert SkipSpace(tail) == SkipSpace("\n" + next);
  }

  /** The rewritten file gives back the configuration exactly when both strings had been accepted. */
  lemma RepairExactly(keys: seq<string>, text: string)
    requires GoodKeys(keys)
    ensures var c := ParseWith(keys, INITIAL, text).0;
      ParseWith(keys, INITIAL, FileAfterWith(keys, text)).0 == c <==> c.engineId.Some? && c.language.Some?
  {
    var (c, complete) := ParseWith(keys, INITIAL, text);
    RepairIsIdempotent(keys, text);
    if !(c.engineId.Some? && c.language.Some?) {
      PartialLoad(keys, text);
      MissingStringsComeBackDifferent(keys, c);
    }
  }

  lemma PartialLoad(keys: seq<string>, text: string)
    requires GoodKeys(keys)
    ensures var (c, complete) := ParseWith(keys, INITIAL, text);
      c.language.None? ==>
        && !complete && c.silence == 1 && c.profanity == 0 && c.punctuation == 0
        && (c.engineId.Some? && c.engineId.value != "" ==> IsWord(c.engineId.value))
    ensures ParseWith(keys, INITIAL, text).0.engineId.None? ==> ParseWith(keys, INITIAL, text).0.language.None?
  {
    var s1 := ReadStrings(Scan("", "", 0, text));
    ReadStringsMoves(Scan("", "", 0, text));
    var s2 := ReadStrings(s1);
    var s3 := ReadNumber(s2);
    var s4 := ReadNumber(s3);
    CollectPartial(keys, s1, s2, s3, s4, ReadNumber(s4));
    CollectEngine(keys, s1, s2, s3, s4, ReadNumber(s4));
  }

  lemma CollectPartial(keys: seq<string>, s1: Scan, s2: Scan, s3: Scan, s4: Scan, s5: Scan)
    requires |keys| == 5
    ensures var (c, complete) := Collect(keys, INITIAL, s1, s2, s3, s4, s5);
      && (c.language.None? ==> !complete && c.silence == 1 && c.profanity == 0 && c.punctuation == 0)
      && (c.engineId.None? ==> c.language.None?)
  {
  }

  // ---- Numbers ----

  ghost predicate AllSpace(s: string) {
    forall i :: 0 <= i < |s| ==> IsSpace(s[i])
  }

  predicate AllDigits(s: string) {
    forall i :: 0 <= i < |s| ==> IsDigit(s[i])
  }

  /** A text that begins with a key and a number, taken apart. */
  datatype NumberLine =
    NumberLine(lead: string, key: string, blank: string, sign: string, digits: string, rest: string)

  function LineText(l: NumberLine): string {
    l.lead + (l.key + (l.blank + (l.sign + (l.digits + l.rest))))
  }

  ghost predicate IsNumberLine(l: NumberLine) {
    && AllSpace(l.lead) && IsWord(l.key) && l.blank != "" && AllSpace(l.blank)
    && (l.sign == "" || l.sign == "-" || l.sign == "+")
    && l.digits != "" && AllDigits(l.digits) && (l.rest == "" || !IsDigit(l.rest[0]))
  }

  function NumberOf(l: NumberLine): int
    requires AllDigits(l.digits)
  {
    ToInt32(if l.sign == "-" then -(Value(l.digits) as int) else Value(l.digits))
  }

  /** The text begins with a word, blanks, perhaps a sign, and at least one digit. */
  ghost predicate Scannable(text: string) {
    exists l :: IsNumberLine(l) && LineText(l) == text
  }

  /** The number at the head of a scannable text, or else `last`. */
  ghost function NumberIn(text: string, last: int): int {
    if Scannable(text) then
      var l :| IsNumberLine(l) && LineText(l) == text;
      NumberOf(l)
    else last
  }

  lemma {:induction false} SkipsSpaces(s: string, r: string)
    requires AllSpace(s) && (r == "" || !IsSpace(r[0]))
    ensures SkipSpace(s + r) == r
  {
    if s == "" {
      assert s + r == r;
    } else {
      assert (s + r)[0] == s[0] && (s + r)[1..] == s[1..] + r;
      SkipsSpaces(s[1..], r);
    }
  }

  /** What is skipped is space. */
  lemma {:induction false} SkippedIsSpace(s: string)
    ensures var n := |s| - |SkipSpace(s)|; s == s[..n] + SkipSpace(s) && AllSpace(s[..n])
  {
    if s != "" && IsSpace(s[0]) {
      SkippedIsSpace(s[1..]);
      var n := |s| - |SkipSpace(s)|;
      assert s[..n] == [s[0]] + s[1..][..n - 1];
    }
  }

  lemma {:induction false} DigitsStop(w: string, r: string)
    requires AllDigits(w) && (r == "" || !IsDigit(r[0]))
    ensures DigitLength(w + r) == |w|
  {
    if w == "" {
      assert w + r == r;
    } else {
      assert (w + r)[1..] == w[1..] + r && (w + r)[0] == w[0];
      DigitsStop(w[1..], r);
    }
  }

  lemma SignThenDigits(sign: string, ds: string, r: string)
    requires sign == "" || sign == "-" || sign == "+"
    requires ds != "" && AllDigits(ds) && (r == "" || !IsDigit(r[0]))
    ensures var u := sign + (ds + r);
      && u != "" && !IsSpace(u[0]) && SignLength(u) == |sign| && u[|sign|..] == ds + r && (u[0] == '-' <==> sign == "-")
      && DigitLength(ds + r) == |ds| && (ds + r)[..|ds|] == ds && (ds + r)[|ds|..] == r
  {
    assert IsDigit(ds[0]) && (ds + r)[0] == ds[0];
    DigitsStop(ds, r);
    if sign == "" {
      assert sign + (ds + r) == ds + r;
    }
  }

  lemma KeyThenBlank(key: string, blank: string, u: string)
    requires IsWord(key) && blank != "" && AllSpace(blank) && u != "" && !IsSpace(u[0])
    ensures var t := key + (blank + u);
      WordLength(t) == |key| && t[..|key|] == key && t[|key|..] == blank + u && SkipSpace(blank + u) == u
  {
    assert (blank + u)[0] == blank[0];
    WordEnds(key, blank + u);
    SkipsSpaces(blank, u);
  }

  /** One `%s %d` on a text that has a number: key and number are read, the rest is left. */
  lemma ReadsLine(sc: Scan, l: NumberLine)
    requires IsNumberLine(l) && sc.rest == LineText(l)
    ensures ReadNumber(sc) == Scan(l.key, sc.param, NumberOf(l), l.rest)
  {
    var u := l.sign + (l.digits + l.rest);
    var t := l.key + (l.blank + u);
    SignThenDigits(l.sign, l.digits, l.rest);
    assert t[0] == l.key[0];
    SkipsSpaces(l.lead, t);
    KeyThenBlank(l.key, l.blank, u);
  }

  // What the scanner takes off the front of a text, with the rest.

  lemma SplitSpace(s: string) returns (lead: string, t: string)
    ensures t == SkipSpace(s) && s == lead + t && AllSpace(lead) && (t != "" ==> !IsSpace(t[0]))
    ensures (s == "" || IsSpace(s[0])) && t != "" ==> lead != ""
  {
    SkippedIsSpace(s);
    t := SkipSpace(s);
    lead := s[..|s| - |t|];
  }

  lemma SplitWord(t: string) returns (word: string, after: string)
    requires t != "" && !IsSpace(t[0])
    ensures after == t[WordLength(t)..] && t == word + after && IsWord(word) && (after == "" || IsSpace(after[0]))
  {
    word, after := t[..WordLength(t)], t[WordLength(t)..];
    assert WordLength(t) > 0;
  }

  lemma SplitSign(u: string) returns (sign: string, v: string)
    ensures v == u[SignLength(u)..] && u == sign + v && (sign == "" || sign == "-" || sign == "+")
  {
    sign, v := u[..SignLength(u)], u[SignLength(u)..];
    if SignLength(u) == 1 { assert u[..1] == [u[0]]; }
  }

  lemma SplitDigits(v: string) returns (digits: string, rest: string)
    ensures |digits| == DigitLength(v) && v == digits + rest && AllDigits(digits) && (rest == "" || !IsDigit(rest[0]))
  {
    digits, rest := v[..DigitLength(v)], v[DigitLength(v)..];
  }

  lemma LineFrom(l: NumberLine, text: string, t: string, after: string, u: string, v: string)
    requires IsNumberLine(l)
    requires text == l.lead + t && t == l.key + after && after == l.blank + u
    requires u == l.sign + v && v == l.digits + l.rest
    ensures Scannable(text)
  {
    hide IsNumberLine;
    assert LineText(l) == text;
  }

  /** A text in which one `%s %d` finds a digit is scannable. */
  lemma DigitsFound(text: string)
    ensures var t := SkipSpace(text); var n := WordLength(t); var u := SkipSpace(t[n..]); var sign := SignLength(u);
      DigitLength(u[sign..]) > 0 ==> Scannable(text)
  {
    hide SkipSpace, WordLength, DigitLength, SignLength, IsWord, AllSpace, AllDigits, IsSpace, IsDigit, Scannable;
    var lead, t := SplitSpace(text);
    if t != "" {
      var key, after := SplitWord(t);
      var blank, u := SplitSpace(after);
      var sign, v := SplitSign(u);
      var digits, rest := SplitDigits(v);
      if digits != "" {
        LineFrom(NumberLine(lead, key, blank, sign, digits, rest), text, t, after, u, v);
      }
    }
  }

  /** One `%s %d`, on any text: the number that stands there, or the integer read before. */
  lemma NumberRead(sc: Scan)
    ensures ReadNumber(sc).num == NumberIn(sc.rest, sc.num)
  {
    DigitsFound(sc.rest);
    if Scannable(sc.rest) {
      var l :| IsNumberLine(l) && LineText(l) == sc.rest && NumberOf(l) == NumberIn(sc.rest, sc.num);
      ReadsLine(sc, l);
    }
  }

  /** Over any earlier configuration and any text: each of the three numbers whose key is met is the one that
      stands on its line, if one does, and otherwise the last integer read before it, 0 at first. */
  lemma NumbersTaken(keys: seq<string>, c: Conf, text: string)
    requires |keys| == 5
    ensures var s2 := ReadStrings(ReadStrings(Scan("", "", 0, text)));
      var s3 := ReadNumber(s2); var s4 := ReadNumber(s3);
      var (r, complete) := ParseWith(keys, c, text);
      var n := Met(keys, [ReadStrings(Scan("", "", 0, text)).id, s2.id, s3.id, s4.id, ReadNumber(s4).id]);
      && (n > 2 ==> r.silence == NumberIn(s2.rest, 0))
      && (n > 3 ==> r.profanity == NumberIn(s3.rest, r.silence))
      && (n > 4 ==> r.punctuation == NumberIn(s4.rest, r.profanity))
  {
    hide ReadStrings, ReadNumber, Met, NumberIn, Collect;
    var s1 := ReadStrings(Scan("", "", 0, text));
    var s2 := ReadStrings(s1);
    var s3 := ReadNumber(s2);
    var s4 := ReadNumber(s3);
    StringsKeepNumber(Scan("", "", 0, text));
    StringsKeepNumber(s1);
    NumberRead(s2);
    NumberRead(s3);
    NumberRead(s4);
    CollectsPrefix(keys, c, s1, s2, s3, s4, ReadNumber(s4));
  }

  lemma StringsKeepNumber(sc: Scan)
    ensures ReadStrings(sc).num == sc.num
  {
  }

  /** An earlier value survives a line without a number exactly if it happens to be the last integer read. */
  lemma UnreadableNumberKeeps(keys: seq<string>, c: Conf, text: string)
    requires |keys| == 5
    ensures var s2 := ReadStrings(ReadStrings(Scan("", "", 0, text)));
      var s3 := ReadNumber(s2); var s4 := ReadNumber(s3);
      var (r, complete) := ParseWith(keys, c, text);
      var n := Met(keys, [ReadStrings(Scan("", "", 0, text)).id, s2.id, s3.id, s4.id, ReadNumber(s4).id]);
      && (n > 2 && !Scannable(s2.rest) ==> (r.silence == c.silence <==> c.silence == 0))
      && (n > 3 && !Scannable(s3.rest) ==> (r.profanity == c.profanity <==> c.profanity == r.silence))
      && (n > 4 && !Scannable(s4.rest) ==> (r.punctuation == c.punctuation <==> c.punctuation == r.profanity))
  {
    hide ReadStrings, ReadNumber, Met, ParseWith, Scannable;
    NumbersTaken(keys, c, text);
  }

  // ---- Words ----

  /** A text that begins with a key and a word, taken apart. */
  datatype WordLine = WordLine(lead: string, key: string, blank: string, word: string, rest: string)

  function WordLineText(l: WordLine): string {
    l.lead + (l.key + (l.blank + (l.word + l.rest)))
  }

  ghost predicate IsWordLine(l: WordLine) {
    && AllSpace(l.lead) && IsWord(l.key) && l.blank != "" && AllSpace(l.blank)
    && IsWord(l.word) && (l.rest == "" || IsSpace(l.rest[0]))
  }

  /** The text has a second word. */
  ghost predicate HasWord(text: string) {
    exists l :: IsWordLine(l) && WordLineText(l) == text
  }

  /** The second word of the text, or else `last`. */
  ghost function WordIn(text: string, last: string): string {
    if HasWord(text) then
      var l :| IsWordLine(l) && WordLineText(l) == text;
      l.word
    else last
  }

  /** One `%s %s` on a text that has two words: both are read, the rest is left. */
  lemma ReadsWordLine(sc: Scan, l: WordLine)
    requires IsWordLine(l) && sc.rest == WordLineText(l)
    ensures ReadStrings(sc) == Scan(l.key, l.word, sc.num, l.rest)
  {
    var u := l.word + l.rest;
    var t := l.key + (l.blank + u);
    assert u[0] == l.word[0] && t[0] == l.key[0];
    SkipsSpaces(l.lead, t);
    KeyThenBlank(l.key, l.blank, u);
    WordEnds(l.word, l.rest);
    assert u[..|l.word|] == l.word && u[|l.word|..] == l.rest;
  }

  lemma WordLineFrom(l: WordLine, text: string, t: string, after: string, u: string)
    requires IsWordLine(l)
    requires text == l.lead + t && t == l.key + after && after == l.blank + u && u == l.word + l.rest
    ensures HasWord(text)
  {
    hide IsWordLine;
    assert WordLineText(l) == text;
  }

  /** A text in which one `%s %s` finds a second word has one. */
  lemma WordFound(text: string)
    ensures var t := SkipSpace(text); SkipSpace(t[WordLength(t)..]) != "" ==> HasWord(text)
  {
    hide SkipSpace, WordLength, IsWord, AllSpace, IsSpace, HasWord;
    var lead, t := SplitSpace(text);
    if t != "" {
      var key, after := SplitWord(t);
      var blank, u := SplitSpace(after);
      if u != "" {
        var word, rest := SplitWord(u);
        WordLineFrom(WordLine(lead, key, blank, word, rest), text, t, after, u);
      }
    }
  }

  /** One `%s %s`, on any text: the word that stands there, or the word read before. */
  lemma StringRead(sc: Scan)
    ensures ReadStrings(sc).param == WordIn(sc.rest, sc.param)
  {
    hide WordIn, HasWord;
    WordFound(sc.rest);
    if HasWord(sc.rest) {
      var l := WordWitness(sc.rest, sc.param);
      ReadsWordLine(sc, l);
    } else {
      NoWordIn(sc.rest, sc.param);
    }
  }

  lemma WordWitness(text: string, last: string) returns (l: WordLine)
    requires HasWord(text)
    ensures IsWordLine(l) && WordLineText(l) == text && l.word == WordIn(text, last)
  {
    l :| IsWordLine(l) && WordLineText(l) == text && l.word == WordIn(text, last);
  }

  lemma NoWordIn(text: string, last: string)
    requires !HasWord(text)
    ensures WordIn(text, last) == last
  {
  }

  /** Over any earlier configuration and any text: each string whose key is met is the word on its line, if
      there is one, and otherwise the last word read before it, "" at first. */
  lemma StringsTaken(keys: seq<string>, c: Conf, text: string)
    requires |keys| == 5
    ensures var s1 := ReadStrings(Scan("", "", 0, text)); var s2 := ReadStrings(s1);
      var s3 := ReadNumber(s2); var s4 := ReadNumber(s3);
      var (r, complete) := ParseWith(keys, c, text);
      var n := Met(keys, [s1.id, s2.id, s3.id, s4.id, ReadNumber(s4).id]);
      && (n > 0 ==> r.engineId == Some(WordIn(text, "")))
      && (n > 1 ==> r.language == Some(WordIn(s1.rest, r.engineId.value)))
  {
    hide ReadStrings, ReadNumber, Met, WordIn, Collect;
    var s1 := ReadStrings(Scan("", "", 0, text));
    var s2 := ReadStrings(s1);
    var s3 := ReadNumber(s2);
    var s4 := ReadNumber(s3);
    StringRead(Scan("", "", 0, text));
    StringRead(s1);
    CollectsPrefix(keys, c, s1, s2, s3, s4, ReadNumber(s4));
  }

  /** A language line without a word takes the engine id for the language, and only such a line can. */
  lemma MissingWordRepeats(keys: seq<string>, c: Conf, text: string)
    requires |keys| == 5
    ensures var s1 := ReadStrings(Scan("", "", 0, text)); var s2 := ReadStrings(s1);
      var s3 := ReadNumber(s2); var s4 := ReadNumber(s3);
      var (r, complete) := ParseWith(keys, c, text);
      var n := Met(keys, [s1.id, s2.id, s3.id, s4.id, ReadNumber(s4).id]);
      n > 1 && r.engineId.Some? ==>
        (r.language == r.engineId <==> !HasWord(s1.rest) || WordIn(s1.rest, "") == r.engineId.value)
  {
    hide ReadStrings, ReadNumber, Met, ParseWith, HasWord;
    StringsTaken(keys, c, text);
    SameWord(ReadStrings(Scan("", "", 0, text)).rest, WordIn(text, ""), "");
  }

  lemma SameWord(text: string, a: string, b: string)
    ensures HasWord(text) ==> WordIn(text, a) == WordIn(text, b)
    ensures !HasWord(text) ==> WordIn(text, a) == a
  {
    if HasWord(text) {
      var l := WordWitness(text, a);
      var m := WordWitness(text, b);
      ReadsWordLine(Scan("", "", 0, text), l);
      ReadsWordLine(Scan("", "", 0, text), m);
    }
  }

  /** The carry-over at work: a text that ends right after the language key has the engine id for language. */
  lemma LanguageTakesEngineId(keys: seq<string>, c: Conf, e: string)
    requires GoodKeys(keys) && IsWord(e)
    ensures var r := ParseWith(keys, c, keys[0] + " " + e + "\n" + keys[1]).0;
      r.engineId == Some(e) && r.language == Some(e)
  {
    hide ReadNumber, Collect;
    var text := keys[0] + " " + e + "\n" + keys[1];
    var s0 := Scan("", "", 0, text);
    Regroup(keys[0] + " " + e, keys[1]);
    assert text == "" + (keys[0] + " " + e + ("\n" + keys[1]));
    ReadsString(s0, "", keys[0], e, "\n" + keys[1]);
    var s1 := ReadStrings(s0);
    LoneKey(s1, keys[1]);
    var s2 := ReadStrings(s1);
    var s3 := ReadNumber(s2);
    var s4 := ReadNumber(s3);
    CollectStrings(keys, c, s1, s2, s3, s4, ReadNumber(s4));
  }

  lemma LoneKey(sc: Scan, key: string)
    requires IsWord(key) && sc.rest == "\n" + key
    ensures ReadStrings(sc) == Scan(key, sc.param, sc.num, "")
  {
    SkipsLead("\n", key);
    assert key + "" == key;
    SkipsNothing(key, "");
    WordEnds(key, "");
    assert key[..|key|] == key && key[|key|..] == "";
  }

  lemma CollectStrings(keys: seq<string>, c: Conf, s1: Scan, s2: Scan, s3: Scan, s4: Scan, s5: Scan)
    requires |keys| == 5 && s1.id == keys[0] && s2.id == keys[1]
    ensures var r := Collect(keys, c, s1, s2, s3, s4, s5).0;
      r.engineId == Some(s1.param) && r.language == Some(s2.param)
  {
  }

  /** The loss at work: after both strings, any silence line without a number turns the default 1 into 0. */
  lemma UnreadableNumberIsZero(keys: seq<string>, e: string, l: string, v: string)
    requires GoodKeys(keys) && IsWord(e) && IsWord(l) && !Scannable("\n" + (keys[2] + " " + v))
    ensures var text := keys[0] + " " + e + "\n" + (keys[1] + " " + l + "\n" + (keys[2] + " " + v));
      ParseWith(keys, INITIAL, text).0.silence == 0
  {
    hide Scannable, NumberIn, Collect;
    var text := keys[0] + " " + e + "\n" + (keys[1] + " " + l + "\n" + (keys[2] + " " + v));
    var s1 := ReadStrings(Scan("", "", 0, text));
    var s2 := ReadStrings(s1);
    var s3 := ReadNumber(s2);
    var s4 := ReadNumber(s3);
    StringsOfText(keys, e, l, keys[2] + " " + v);
    NumberRead(s2);
    KeyRead(s2, keys[2], v);
    CollectSilence(keys, s1, s2, s3, s4, ReadNumber(s4));
    assert NumberIn(s2.rest, 0) == 0 by { NothingIn(s2.rest); }
  }

  lemma NothingIn(text: string)
    requires !Scannable(text)
    ensures NumberIn(text, 0) == 0
  {
  }

  /** The two strings of a text that begins well. */
  lemma StringsOfText(keys: seq<string>, e: string, l: string, t3: string)
    requires GoodKeys(keys) && IsWord(e) && IsWord(l)
    ensures var s1 := ReadStrings(Scan("", "", 0, keys[0] + " " + e + "\n" + (keys[1] + " " + l + "\n" + t3)));
      && s1 == Scan(keys[0], e, 0, "\n" + (keys[1] + " " + l + ("\n" + t3)))
      && ReadStrings(s1) == Scan(keys[1], l, 0, "\n" + t3)
  {
    var t2 := keys[1] + " " + l + ("\n" + t3);
    var t1 := keys[0] + " " + e + ("\n" + t2);
    Regroup(keys[1] + " " + l, t3);
    Regroup(keys[0] + " " + e, t2);
    var s0 := Scan("", "", 0, keys[0] + " " + e + "\n" + (keys[1] + " " + l + "\n" + t3));
    assert s0.rest == "" + t1;
    ReadsString(s0, "", keys[0], e, "\n" + t2);
    ReadsString(ReadStrings(s0), "\n", keys[1], l, "\n" + t3);
  }

  lemma CollectSilence(keys: seq<string>, s1: Scan, s2: Scan, s3: Scan, s4: Scan, s5: Scan)
    requires |keys| == 5 && s1.id == keys[0] && s2.id == keys[1] && s3.id == keys[2]
    ensures Collect(keys, INITIAL, s1, s2, s3, s4, s5).0.silence == s3.num
  {
  }

  lemma KeyRead(sc: Scan, key: string, v: string)
    requires IsWord(key) && sc.rest == "\n" + (key + " " + v)
    ensures ReadNumber(sc).id == key
  {
    var t := key + " " + v;
    assert t == key + (" " + v);
    SkipsLead("\n", t);
    SkipsNothing(key, " " + v);
    WordEnds(key, " " + v);
    assert t[..|key|] == key;
  }

  // ---- The file as the daemon keeps it ----

  class ConfigFile {
    var engineId: Option<string>
    var language: Option<string>
    var silence: int
    var profanity: int
    var punctuation: int

    /** The two files and whether the first can be opened for writing. */
    var user: Option<string>
    var shipped: Option<string>
    var writable: bool

    ghost function Values(): Conf
      reads this
    {
      Conf(engineId, language, silence, profanity, punctuation)
    }

    ghost function Found(): Option<string>
      reads this
    {
      if user.Some? then user else shipped
    }

    /** A start on the files as they are would load the present values, if they can be written and read. */
    ghost predicate Durable()
      reads this
    {
      writable && Printable(Values()) ==> Found().Some? && Parse(INITIAL, Found().value).0 == Values()
    }

    /** Nothing changes but the user's file, which becomes the printed values if it can be opened. */
    twostate predicate Saved(wasUser: Option<string>)
      reads this
    {
      && user == (if writable then Some(Print(Values())) else wasUser)
      && shipped == old(shipped) && writable == old(writable)
    }

    constructor (user: Option<string>, shipped: Option<string>, writable: bool)
      ensures this.shipped == shipped && this.writable == writable
      ensures var found := if user.Some? then user else shipped;
        Values() == if found.Some? then Parse(INITIAL, found.value).0 else INITIAL
      ensures var found := if user.Some? then user else shipped;
        this.user == if (found.Some? && Parse(INITIAL, found.value).1) || !writable then user else Some(Print(Values()))
      ensures user.Some? && writable ==> this.user == Some(FileAfterWith(KEYS, user.value))
      ensures Durable()
    {
      this.user, this.shipped, this.writable := user, shipped, writable;
      engineId, language, silence, profanity, punctuation := None, None, 1, 0, 0;
      new;
      LoadFile();
      PrintedComesBack(Values());
    }

    method SaveFile() returns (ret: int)
      modifies this`user
      ensures Saved(old(user)) && ret == if writable then 0 else -1
    {
      if !writable { return -1; }
      var text := "";
      text := text + (KEYS[0] + " " + StringText(engineId) + "\n");
      text := text + (KEYS[1] + " " + StringText(language) + "\n");
      text := text + (KEYS[2] + " " + Decimal(silence) + "\n");
      text := text + (KEYS[3] + " " + Decimal(profanity) + "\n");
      text := text + (KEYS[4] + " " + Decimal(punctuation) + "\n");
      PrintIsSequential(KEYS, Values());
      user := Some(text);
      return 0;
    }

    /** The five reads, each field stored as its key is met; stops at the first key that is not. */
    method ReadFields(keys: seq<string>, text: string) returns (complete: bool)
      requires |keys| == 5
      modifies this
      ensures (Values(), complete) == ParseWith(keys, old(Values()), text)
      ensures user == old(user) && shipped == old(shipped) && writable == old(writable)
    {
      var buf := ReadStrings(Scan("", "", 0, text));
      if !(keys[0] <= buf.id) { return false; }
      engineId := Some(buf.param);
      buf := ReadStrings(buf);
      if !(keys[1] <= buf.id) { return false; }
      language := Some(buf.param);
      buf := ReadNumber(buf);
      if !(keys[2] <= buf.id) { return false; }
      silence := buf.num;
      buf := ReadNumber(buf);
      if !(keys[3] <= buf.id) { return false; }
      profanity := buf.num;
      buf := ReadNumber(buf);
      if !(keys[4] <= buf.id) { return false; }
      punctuation := buf.num;
      return true;
    }

    method LoadFile()
      modifies this
      ensures var found := old(Found());
        Values() == if found.Some? then Parse(old(Values()), found.value).0 else old(Values())
      ensures var found := old(Found());
        user == if (found.Some? && Parse(old(Values()), found.value).1) || !writable
                then old(user) else Some(Print(Values()))
      ensures shipped == old(shipped) && writable == old(writable)
    {
      var found := if user.Some? then user else shipped;
      var complete := false;
      if found.Some? { complete := ReadFields(KEYS, found.value); }
      if !complete { var _ := SaveFile(); }
    }

    method SetEngine(id: string)
      modifies this
      ensures Durable()
      ensures Values() == old(Values()).(engineId := Some(id)) && Saved(old(user))
    {
      engineId := Some(id);
      var _ := SaveFile();
      PrintedComesBack(Values());
    }

    method SetLanguage(lang: string)
      modifies this
      ensures Durable()
      ensures Values() == old(Values()).(language := Some(lang)) && Saved(old(user))
    {
      language := Some(lang);
      var _ := SaveFile();
      PrintedComesBack(Values());
    }

    method SetSilence(value: int)
      modifies this
      ensures Durable()
      ensures Values() == old(Values()).(silence := value) && Saved(old(user))
    {
      silence := value;
      var _ := SaveFile();
      PrintedComesBack(Values());
    }

    method SetProfanity(value: int)
      modifies this
      ensures Durable()
      ensures Values() == old(Values()).(profanity := value) && Saved(old(user))
    {
      profanity := value;
      var _ := SaveFile();
      PrintedComesBack(Values());
    }

    method SetPunctuation(value: int)
      modifies this
      ensures Durable()
      ensures Values() == old(Values()).(punctuation := value) && Saved(old(user))
    {
      punctuation := value;
      var _ := SaveFile();
      PrintedComesBack(Values());
    }
  }

  lemma PrintedComesBack(c: Conf)
    ensures Printable(c) ==> Parse(INITIAL, Print(c)).0 == c
  {
    if Printable(c) { RoundTrip(c, INITIAL); }
  }

  lemma PrintIsSequential(keys: seq<string>, c: Conf)
    requires |keys| == 5
    ensures PrintWith(keys, c) == "" + (keys[0] + " " + StringText(c.engineId) + "\n") +
      (keys[1] + " " + StringText(c.language) + "\n") + (keys[2] + " " + Decimal(c.silence) + "\n") +
      (keys[3] + " " + Decimal(c.profanity) + "\n") + (keys[4] + " " + Decimal(c.punctuation) + "\n")
  {
    var l1, l2 := keys[0] + " " + StringText(c.engineId) + "\n", keys[1] + " " + StringText(c.language) + "\n";
    var l3, l4 := keys[2] + " " + Decimal(c.silence) + "\n", keys[3] + " " + Decimal(c.profanity) + "\n";
    var l5 := keys[4] + " " + Decimal(c.punctuation) + "\n";
    assert PrintWith(keys, c) == l1 + (l2 + (l3 + (l4 + l5)));
    assert l1 + (l2 + (l3 + (l4 + l5))) == "" + l1 + l2 + l3 + l4 + l5;
  }
}
