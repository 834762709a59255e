/**
 * The classical ciphers of the cipher utilities: Atbash, Caesar and Vigenere
 * over strings, and the dispatcher that selects one by name.
 *
 * Each cipher is specified by a function defined on a prefix plus its last
 * character, which is the order in which the source's loops append to their
 * result, and computed by a method with that loop. A "letter" is an ASCII
 * letter; the methods ask for ASCII text.
 */
module Ciphers {
  import opened Common

  predicate IsUpper(c: char) { 'A' <= c <= 'Z' }
  predicate IsLower(c: char) { 'a' <= c <= 'z' }
  predicate IsLetter(c: char) { IsUpper(c) || IsLower(c) }

  predicate IsAsciiText(s: string) {
    forall i :: 0 <= i < |s| ==> s[i] as int < 128
  }

  /** Upper-case of an ASCII character; every other character is kept. */
  function ToUpper(c: char): (d: char)
    ensures IsLetter(c) ==> IsUpper(d) && d as int - 'A' as int == (if IsUpper(c) then c as int - 'A' as int else c as int - 'a' as int)
    ensures !IsLetter(c) ==> d == c
  {
    if IsLower(c) then (c as int - 32) as char else c
  }

  /** Lower-case of an ASCII upper-case letter; every other character is kept. */
  function ToLower(c: char): (d: char)
    ensures IsUpper(c) ==> IsLower(d) && d as int - 'a' as int == c as int - 'A' as int
    ensures !IsUpper(c) ==> d == c
  {
    if IsUpper(c) then (c as int + 32) as char else c
  }

  /** The code of 'A' or 'a', whichever starts the alphabet of `c`'s case. */
  function Base(c: char): int {
    if IsUpper(c) then 'A' as int else 'a' as int
  }

  /**
   * The same length, every letter keeps its case, and every non-letter stays
   * where it was.
   */
  ghost predicate SameShape(s: string, r: string) {
    && |r| == |s|
    && forall i :: 0 <= i < |s| ==>
         && (IsUpper(r[i]) <==> IsUpper(s[i]))
         && (IsLower(r[i]) <==> IsLower(s[i]))
         && (!IsLetter(s[i]) ==> r[i] == s[i])
  }

  // ---------------------------------------------------------------- Atbash

  /** Atbash on one character: the letter at alphabet position p becomes the one at 25 - p. */
  function AtbashChar(c: char): (d: char)
    ensures IsUpper(d) <==> IsUpper(c)
    ensures IsLower(d) <==> IsLower(c)
    ensures IsLetter(c) ==> d as int - Base(c) == 25 - (c as int - Base(c))
    ensures !IsLetter(c) ==> d == c
  {
    if IsLetter(c) then
      var pos := ToUpper(c) as int - 'A' as int;
      var flipped := (25 - pos + 'A' as int) as char;
      if IsLower(c) then ToLower(flipped) else flipped
    else
      c
  }

  function Atbash(s: string): (r: string)
    ensures |r| == |s|
  {
    if s == [] then [] else Atbash(s[..|s| - 1]) + [AtbashChar(s[|s| - 1])]
  }

  lemma {:induction false} AtbashAt(s: string, i: int)
    requires 0 <= i < |s|
    ensures Atbash(s)[i] == AtbashChar(s[i])
  {
    if i < |s| - 1 {
      AtbashAt(s[..|s| - 1], i);
    }
  }

  /** Atbash undoes itself: encryption and decryption are the same map. */
  lemma {:induction false} AtbashInvolutive(s: string)
    ensures Atbash(Atbash(s)) == s
  {
    var r := Atbash(s);
    forall i | 0 <= i < |s|
      ensures Atbash(r)[i] == s[i]
    {
      AtbashAt(s, i);
      AtbashAt(r, i);
    }
  }

  lemma {:induction false} AtbashSameShape(s: string)
    ensures SameShape(s, Atbash(s))
  {
    forall i | 0 <= i < |s|
      ensures AtbashChar(s[i]) == Atbash(s)[i]
    {
      AtbashAt(s, i);
    }
  }

  lemma AtbashHello()
    ensures Atbash("Hello") == "Svool"
  {
    assert "Hello"[..4] == "Hell";
    assert "Hell"[..3] == "Hel";
    assert "Hel"[..2] == "He";
    assert "He"[..1] == "H";
    assert "H"[..0] == "";
  }

  /** Atbash loop: one result character per input character; `mode` has no effect. */
  method AtbashCipher(text: string, mode: string) returns (r: string)
    requires IsAsciiText(text)
    ensures r == Atbash(text)
  {
    var result: string := [];
    var i := 0;
    while i < |text|
      invariant 0 <= i <= |text|
      invariant result == Atbash(text[..i])
    {
      assert text[..i + 1][..i] == text[..i];
      result := result + [AtbashChar(text[i])];
      i := i + 1;
    }
    assert text[..|text|] == text;
    r := result;
  }

  // ---------------------------------------------------------------- Caesar

  /** The shift actually applied: "decrypt" negates it, any other mode keeps it. */
  function DirectedShift(shift: int, mode: string): (k: int)
    ensures mode == "decrypt" ==> k + shift == 0
    ensures mode != "decrypt" ==> k == shift
  {
    if mode == "decrypt" then -shift else shift
  }

  /** Shift a letter by `k` places, modulo 26, within its own case; other characters are kept. */
  function ShiftChar(c: char, k: int): (d: char)
    ensures IsUpper(d) <==> IsUpper(c)
    ensures IsLower(d) <==> IsLower(c)
    ensures IsLetter(c) ==> d as int - Base(c) == (c as int - Base(c) + k) % 26
    ensures !IsLetter(c) ==> d == c
  {
    if IsLetter(c) then
      var offset := Base(c);
      ((c as int - offset + k) % 26 + offset) as char
    else
      c
  }

  /** Shifting back by the same amount restores the character. */
  lemma ShiftCharInverse(c: char, k: int)
    ensures ShiftChar(ShiftChar(c, k), -k) == c
  {
  }

  function Caesar(s: string, k: int): (r: string)
    ensures |r| == |s|
  {
    if s == [] then [] else Caesar(s[..|s| - 1], k) + [ShiftChar(s[|s| - 1], k)]
  }

  lemma {:induction false} CaesarAt(s: string, k: int, i: int)
    requires 0 <= i < |s|
    ensures Caesar(s, k)[i] == ShiftChar(s[i], k)
  {
    if i < |s| - 1 {
      CaesarAt(s[..|s| - 1], k, i);
    }
  }

  lemma {:induction false} CaesarSameShape(s: string, k: int)
    ensures SameShape(s, Caesar(s, k))
  {
    forall i | 0 <= i < |s|
      ensures ShiftChar(s[i], k) == Caesar(s, k)[i]
    {
      CaesarAt(s, k, i);
    }
  }

  /** Decrypting with shift `shift` undoes encrypting with the same shift, for every integer shift. */
  lemma {:induction false} CaesarRoundTrip(s: string, shift: int)
    ensures Caesar(Caesar(s, DirectedShift(shift, "encrypt")), DirectedShift(shift, "decrypt")) == s
  {
    var r := Caesar(s, shift);
    forall i | 0 <= i < |s|
      ensures Caesar(r, -shift)[i] == s[i]
    {
      CaesarAt(s, shift, i);
      CaesarAt(r, -shift, i);
      ShiftCharInverse(s[i], shift);
    }
  }

  lemma CaesarAbc()
    ensures Caesar("abc", DirectedShift(3, "encrypt")) == "def"
  {
  }

  /** Caesar loop: `mode` "decrypt" negates the shift, then every letter is shifted. */
  method CaesarCipher(text: string, shift: int, mode: string) returns (r: string)
    requires IsAsciiText(text)
    ensures r == Caesar(text, DirectedShift(shift, mode))
  {
    var k := shift;
    if mode == "decrypt" {
      k := -shift;
    }
    var result: string := [];
    var i := 0;
    while i < |text|
      invariant 0 <= i <= |text|
      invariant result == Caesar(text[..i], k)
    {
      assert text[..i + 1][..i] == text[..i];
      result := result + [ShiftChar(text[i], k)];
      i := i + 1;
    }
    assert text[..|text|] == text;
    r := result;
  }

  // -------------------------------------------------------------- Vigenere

  /** The key as the cipher uses it: upper-cased, letters only. */
  function CleanKey(key: string): (r: string)
    ensures |r| <= |key|
    ensures forall i :: 0 <= i < |r| ==> IsUpper(r[i])
    ensures r == [] <==> forall i :: 0 <= i < |key| ==> !IsLetter(key[i])
    ensures |r| == LetterCount(key)
    ensures (forall i :: 0 <= i < |key| ==> IsUpper(key[i])) ==> r == key
  {
    if key == [] then []
    else
      var c := ToUpper(key[|key| - 1]);
      var rest := CleanKey(key[..|key| - 1]);
      assert forall i :: 0 <= i < |key| - 1 ==> key[..|key| - 1][i] == key[i];
      assert key[..|key| - 1] + [key[|key| - 1]] == key;
      rest + (if IsLetter(c) then [c] else [])
  }

  /** The number of letters in `s`: the key position the next letter uses. */
  function LetterCount(s: string): (n: nat)
    ensures n <= |s|
  {
    if s == [] then 0
    else LetterCount(s[..|s| - 1]) + (if IsLetter(s[|s| - 1]) then 1 else 0)
  }

  /** The shift contributed by the key letter at (cyclic) position `j`. */
  function KeyShift(key: string, j: nat): (k: int)
    requires key != []
    requires forall i :: 0 <= i < |key| ==> IsUpper(key[i])
    ensures 0 <= k < 26
  {
    var c := key[j % |key|];
    assert IsUpper(c);
    c as int - 'A' as int
  }

  /** Vigenere with a cleaned, non-empty key: the n-th letter of the text uses key letter n mod |key|. */
  function VigenereWith(text: string, key: string, mode: string): (r: string)
    requires key != []
    requires forall i :: 0 <= i < |key| ==> IsUpper(key[i])
    ensures |r| == |text|
  {
    if text == [] then []
    else
      var prefix := text[..|text| - 1];
      var c := text[|text| - 1];
      VigenereWith(prefix, key, mode)
        + [if IsLetter(c) then ShiftChar(c, DirectedShift(KeyShift(key, LetterCount(prefix)), mode)) else c]
  }

  /** Vigenere as a whole: a key that is empty or has no letter leaves the text as it is. */
  function Vigenere(text: string, key: string, mode: string): string {
    if key == [] then text
    else
      var k := CleanKey(key);
      if k == [] then text else VigenereWith(text, k, mode)
  }

  lemma {:induction false} VigenereWithAt(text: string, key: string, mode: string, i: int)
    requires key != []
    requires forall j :: 0 <= j < |key| ==> IsUpper(key[j])
    requires 0 <= i < |text|
    ensures VigenereWith(text, key, mode)[i]
         == if IsLetter(text[i])
            then ShiftChar(text[i], DirectedShift(KeyShift(key, LetterCount(text[..i])), mode))
            else text[i]
  {
    if i < |text| - 1 {
      var prefix := text[..|text| - 1];
      VigenereWithAt(prefix, key, mode, i);
      assert prefix[..i] == text[..i];
    }
  }

  lemma {:induction false} VigenereWithSameShape(text: string, key: string, mode: string)
    requires key != []
    requires forall j :: 0 <= j < |key| ==> IsUpper(key[j])
    ensures SameShape(text, VigenereWith(text, key, mode))
  {
    forall i | 0 <= i < |text|
      ensures VigenereWith(text, key, mode)[i]
           == if IsLetter(text[i])
              then ShiftChar(text[i], DirectedShift(KeyShift(key, LetterCount(text[..i])), mode))
              else text[i]
    {
      VigenereWithAt(text, key, mode, i);
    }
  }

  /** Texts of the same shape have their letters at the same positions, so they count alike. */
  lemma {:induction false} LetterCountSameShape(s: string, r: string, n: int)
    requires SameShape(s, r)
    requires 0 <= n <= |s|
    ensures LetterCount(r[..n]) == LetterCount(s[..n])
  {
    if n > 0 {
      LetterCountSameShape(s, r, n - 1);
      assert s[..n][..n - 1] == s[..n - 1];
      assert r[..n][..n - 1] == r[..n - 1];
      assert IsLetter(s[n - 1]) <==> IsLetter(r[n - 1]);
    }
  }

  /** Every cipher result keeps length, case and non-letters. */
  lemma {:induction false} VigenereSameShape(text: string, key: string, mode: string)
    ensures SameShape(text, Vigenere(text, key, mode))
  {
    if key != [] && CleanKey(key) != [] {
      VigenereWithSameShape(text, CleanKey(key), mode);
    }
  }

  /** Decrypting with a key undoes encrypting with the same key. */
  lemma {:induction false} VigenereRoundTrip(text: string, key: string)
    ensures Vigenere(Vigenere(text, key, "encrypt"), key, "decrypt") == text
  {
    if key != [] && CleanKey(key) != [] {
      var k := CleanKey(key);
      var e := VigenereWith(text, k, "encrypt");
      VigenereWithSameShape(text, k, "encrypt");
      forall i | 0 <= i < |text|
        ensures VigenereWith(e, k, "decrypt")[i] == text[i]
      {
        VigenereWithAt(text, k, "encrypt", i);
        VigenereWithAt(e, k, "decrypt", i);
        LetterCountSameShape(text, e, i);
        ShiftCharInverse(text[i], KeyShift(k, LetterCount(text[..i])));
      }
    }
  }

  /** A key without any letter (the empty key included) leaves the text unchanged. */
  lemma VigenereKeyWithoutLetters(text: string, key: string, mode: string)
    requires forall i :: 0 <= i < |key| ==> !IsLetter(key[i])
    ensures Vigenere(text, key, mode) == text
  {
  }

  lemma CleanKeyExample()
    ensures CleanKey("KEY") == "KEY"
  {
  }

  lemma VigenereKeyExample()
    ensures Vigenere("AAAA", "KEY", "encrypt") == "KEYK"
  {
    CleanKeyExample();
    var k := "KEY";
    assert "AAAA"[..3] == "AAA" && "AAA"[..2] == "AA" && "AA"[..1] == "A" && "A"[..0] == "";
    assert LetterCount("AAA") == 3 by {
      assert LetterCount("A") == 1;
      assert LetterCount("AA") == 2;
    }
    assert VigenereWith("AAA", k, "encrypt") == "KEY" by {
      assert VigenereWith("A", k, "encrypt") == "K";
      assert VigenereWith("AA", k, "encrypt") == "KE";
    }
  }

  /** Vigenere loop: the key index advances on letters only. */
  method VigenereCipher(text: string, key: string, mode: string) returns (r: string)
    requires IsAsciiText(text) && IsAsciiText(key)
    ensures r == Vigenere(text, key, mode)
  {
    if key == [] {
      return text;
    }
    var k := CleanKey(key);
    if k == [] {
      return text;
    }
    var result: string := [];
    var keyIndex := 0;
    var i := 0;
    while i < |text|
      invariant 0 <= i <= |text|
      invariant keyIndex == LetterCount(text[..i])
      invariant result == VigenereWith(text[..i], k, mode)
    {
      assert text[..i + 1][..i] == text[..i];
      var c := text[i];
      if IsLetter(c) {
        var shift := KeyShift(k, keyIndex);
        if mode == "decrypt" {
          shift := -shift;
        }
        result := result + [ShiftChar(c, shift)];
        keyIndex := keyIndex + 1;
      } else {
        result := result + [c];
      }
      i := i + 1;
    }
    assert text[..|text|] == text;
    r := result;
  }

  // ------------------------------------------------------------ dispatcher

  datatype CipherError = UnknownCipherType(cipherType: string)

  /**
   * Dispatch on the cipher name. A Caesar shift defaults to 3 and a Vigenere
   * key to "KEY"; an unknown name is an error.
   */
  method ProcessText(text: string, cipherType: string, mode: string, shift: Option<int>, key: Option<string>)
    returns (r: Result<string, CipherError>)
    requires IsAsciiText(text)
    requires key.Some? ==> IsAsciiText(key.value)
    ensures cipherType == "atbash" ==> r == Ok(Atbash(text))
    ensures cipherType == "caesar" ==> r == Ok(Caesar(text, DirectedShift(shift.GetOr(3), mode)))
    ensures cipherType == "vigenere" ==> r == Ok(Vigenere(text, key.GetOr("KEY"), mode))
    ensures cipherType !in {"atbash", "caesar", "vigenere"} ==> r == Err(UnknownCipherType(cipherType))
  {
    if cipherType == "atbash" {
      var s := AtbashCipher(text, mode);
      r := Ok(s);
    } else if cipherType == "caesar" {
      var s := CaesarCipher(text, shift.GetOr(3), mode);
      r := Ok(s);
    } else if cipherType == "vigenere" {
      var s := VigenereCipher(text, key.GetOr("KEY"), mode);
      r := Ok(s);
    } else {
      r := Err(UnknownCipherType(cipherType));
    }
  }
}
