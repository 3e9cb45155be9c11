/** The e-mail encoding the chatbot used to put an address into a query
    string: every `@` is spelled `ATSYMB`, and the HTTP API spells it back. */
module EmailCodec {
  import opened Text

  const Marker := "ATSYMB"

  /** `"ATSYMB".join(email.split("@"))`. */
  function Encode(email: string): (r: string)
    ensures r == Replace(email, "@", Marker)
  {
    JoinSplit(email, "@", Marker);
    Join(Marker, Split(email, "@"))
  }

  /** `"@".join(email.split("ATSYMB"))`. */
  function Decode(email: string): (r: string)
    ensures r == Replace(email, Marker, "@")
  {
    JoinSplit(email, Marker, "@");
    Join("@", Split(email, Marker))
  }

  /** An address without the marker passes through decoding unchanged. */
  lemma DecodeIdentity(email: string)
    requires !Contains(email, Marker)
    ensures Decode(email) == email
  {
    SplitWithoutSeparator(email, Marker);
  }

  /** No `@` survives encoding. */
  lemma {:induction false} EncodedHasNoAt(email: string)
    ensures '@' !in Encode(email)
    decreases |email|
  {
    if |email| > 0 {
      EncodedHasNoAt(email[1..]);
      if !StartsWith(email, "@") {
        assert email[0] != '@' by { assert email[..1] == [email[0]]; }
      }
    }
  }

  /** The first character of an encoded address. */
  lemma EncodedHead(s: string)
    requires |s| > 0
    ensures |Replace(s, "@", Marker)| > 0
    ensures Replace(s, "@", Marker)[0] == if StartsWith(s, "@") then 'A' else s[0]
  {
  }

  /** Replacing `@` creates no occurrence of a word that has neither `@`
      nor `A` in it. */
  lemma {:induction false} ReplacePrefix(s: string, w: string)
    requires '@' !in w && 'A' !in w
    requires StartsWith(Replace(s, "@", Marker), w)
    ensures StartsWith(s, w)
    decreases |s|
  {
    if |w| > 0 {
      var r := Replace(s, "@", Marker);
      assert |s| > 0;
      EncodedHead(s);
      assert !StartsWith(s, "@") by {
        assert w[0] == r[0];
      }
      assert s[0] != '@' by { assert s[..1] == [s[0]]; }
      assert r == [s[0]] + Replace(s[1..], "@", Marker);
      assert w[0] == s[0];
      assert StartsWith(Replace(s[1..], "@", Marker), w[1..]) by {
        assert r[1..][..|w| - 1] == r[..|w|][1..];
      }
      ReplacePrefix(s[1..], w[1..]);
      assert s[..|w|] == [s[0]] + s[1..][..|w| - 1];
      assert w == [w[0]] + w[1..];
    }
  }

  /** An encoded address whose first character is not `@` starts with the
      marker only when the address itself does. */
  lemma MarkerInFront(email: string)
    requires |email| > 0 && email[0] != '@'
    ensures StartsWith([email[0]] + Replace(email[1..], "@", Marker), Marker) ==>
      StartsWith(email, Marker)
  {
    var tail := Replace(email[1..], "@", Marker);
    var r := [email[0]] + tail;
    if StartsWith(r, Marker) {
      var w := "TSYMB";
      assert Marker == "A" + w;
      assert StartsWith(tail, w) by {
        assert r[1..] == tail;
        assert r[1..][..|w|] == r[..|Marker|][1..];
      }
      assert '@' !in w && 'A' !in w;
      ReplacePrefix(email[1..], w);
      assert email[0] == 'A' by {
        assert r[0] == email[0];
        assert r[..|Marker|][0] == Marker[0] == 'A';
      }
      assert email[..|Marker|] == [email[0]] + email[1..][..|w|];
    }
  }

  /** Replacing in a text that starts with the pattern. */
  lemma ReplaceLeading(pat: string, rep: string, rest: string)
    requires |pat| > 0
    ensures Replace(pat + rest, pat, rep) == rep + Replace(rest, pat, rep)
  {
    assert (pat + rest)[..|pat|] == pat;
    assert (pat + rest)[|pat|..] == rest;
  }

  /** Replacing in a text that starts with a character the pattern does not
      start with. */
  lemma ReplaceOther(c: char, rest: string, pat: string, rep: string)
    requires |pat| > 0 && c != pat[0]
    ensures Replace([c] + rest, pat, rep) == [c] + Replace(rest, pat, rep)
  {
    assert ([c] + rest)[1..] == rest;
  }

  /** One step of the round trip: the first character is restored and the
      rest is left to the remainder's round trip. */
  lemma RoundTripStep(email: string)
    requires |email| > 0 && !Contains(email, Marker)
    ensures Decode(Encode(email)) == [email[0]] + Decode(Encode(email[1..]))
  {
    var rest := email[1..];
    var tail := Replace(rest, "@", Marker);
    assert email == [email[0]] + rest;
    if email[0] == '@' {
      assert email == "@" + rest;
      ReplaceLeading("@", Marker, rest);
      ReplaceLeading(Marker, "@", tail);
    } else {
      ReplaceOther(email[0], rest, "@", Marker);
      MarkerInFront(email);
      var r := [email[0]] + tail;
      assert !StartsWith(r, Marker);
      assert r[1..] == tail;
    }
  }

  /** Decoding undoes encoding for every address that does not itself
      contain the marker. */
  lemma {:induction false} RoundTrip(email: string)
    requires !Contains(email, Marker)
    ensures Decode(Encode(email)) == email
    decreases |email|
  {
    if |email| > 0 {
      assert !Contains(email[1..], Marker);
      RoundTrip(email[1..]);
      RoundTripStep(email);
      assert email == [email[0]] + email[1..];
    }
  }
}
