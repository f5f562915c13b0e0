/** The server-side configuration both handler variants read from the process
    environment when their module is loaded: the spreadsheet identifier, the
    service-account email and the service-account private key. The key is
    stored with its line breaks written as backslash-`n` and is unescaped on
    load. */
module ServerConfig {
  import opened Js

  /** The three environment variables, as `process.env` holds them (`None`
      for a variable that is not set). */
  datatype Env = Env(sheetId: Option<string>, serviceAccountEmail: Option<string>, privateKey: Option<string>)

  /** `s.replace(/\\n/g, '\n')`: a left-to-right scan in which every backslash
      immediately followed by `n` becomes one newline character. */
  function Unescape(s: string): string
    decreases |s|
  {
    if |s| >= 2 && s[0] == '\\' && s[1] == 'n' then "\n" + Unescape(s[2..])
    else if s == [] then []
    else [s[0]] + Unescape(s[1..])
  }

  /** The opposite direction: every newline written as backslash-`n`, which is
      how a multi-line key is put into a one-line environment variable. */
  function Escape(s: string): string
    decreases |s|
  {
    if s == [] then []
    else (if s[0] == '\n' then "\\n" else [s[0]]) + Escape(s[1..])
  }

  /** `s` holds a backslash immediately followed by `n` somewhere. */
  predicate HasEscapePair(s: string) {
    exists k | 0 <= k < |s| - 1 :: s[k] == '\\' && s[k + 1] == 'n'
  }

  /** A key without any backslash-`n` pair comes out of the unescape unchanged. */
  lemma {:induction false} UnescapeWithoutPairs(s: string)
    requires !HasEscapePair(s)
    ensures Unescape(s) == s
    decreases |s|
  {
    if s != [] {
      assert !HasEscapePair(s[1..]) by {
        forall k | 0 <= k < |s[1..]| - 1 ensures !(s[1..][k] == '\\' && s[1..][k + 1] == 'n') {
          assert s[1..][k] == s[k + 1] && s[1..][k + 1] == s[k + 2];
        }
      }
      UnescapeWithoutPairs(s[1..]);
      if |s| >= 2 {
        assert !(s[0] == '\\' && s[1] == 'n');
      }
    }
  }

  /** The first character of an unescaped string is `n` exactly when the
      input starts with `n` (a pair always starts with a backslash). */
  lemma UnescapeHead(s: string)
    ensures (Unescape(s) != [] && Unescape(s)[0] == 'n') <==> (s != [] && s[0] == 'n')
  {
  }

  lemma NoPairAfter(c: char, r: string)
    requires !HasEscapePair(r)
    requires !(c == '\\' && r != [] && r[0] == 'n')
    ensures !HasEscapePair([c] + r)
  {
    var t := [c] + r;
    forall k | 0 <= k < |t| - 1 ensures !(t[k] == '\\' && t[k + 1] == 'n') {
      if k > 0 {
        assert t[k] == r[k - 1] && t[k + 1] == r[k];
      }
    }
  }

  /** The unescape never leaves a backslash-`n` pair behind, not even one
      formed by characters that were not themselves a pair. */
  lemma {:induction false} UnescapeLeavesNoPairs(s: string)
    ensures !HasEscapePair(Unescape(s))
    decreases |s|
  {
    if |s| >= 2 && s[0] == '\\' && s[1] == 'n' {
      UnescapeLeavesNoPairs(s[2..]);
      NoPairAfter('\n', Unescape(s[2..]));
    } else if s != [] {
      UnescapeLeavesNoPairs(s[1..]);
      UnescapeHead(s[1..]);
      NoPairAfter(s[0], Unescape(s[1..]));
    }
  }

  /** Only the empty string unescapes to the empty string. */
  lemma UnescapeEmptyIff(s: string)
    ensures Unescape(s) == [] <==> s == []
  {
    if |s| >= 2 && s[0] == '\\' && s[1] == 'n' {
      assert Unescape(s)[0] == '\n';
    } else if s != [] {
      assert Unescape(s)[0] == s[0];
    }
  }

  /** Every backslash-`n` pair becomes one newline, and the text on either
      side of it is unescaped on its own: no pair is formed across the split.
      With `UnescapeWithoutPairs`, this fixes the result on every input. */
  lemma {:induction false} UnescapeSplit(a: string, b: string)
    ensures Unescape(a + "\\n" + b) == Unescape(a) + "\n" + Unescape(b)
    decreases |a|
  {
    var s := a + "\\n" + b;
    if a == [] {
      assert s == "\\n" + b && s[2..] == b;
    } else if |a| >= 2 && a[0] == '\\' && a[1] == 'n' {
      assert s[0] == '\\' && s[1] == 'n';
      assert s[2..] == a[2..] + "\\n" + b;
      UnescapeSplit(a[2..], b);
    } else {
      assert !(s[0] == '\\' && s[1] == 'n') by {
        if |a| == 1 { assert s[1] == '\\'; } else { assert s[1] == a[1]; }
      }
      assert s[1..] == a[1..] + "\\n" + b;
      UnescapeSplit(a[1..], b);
    }
  }

  /** A variable holding no raw newline is given back by escaping its
      unescaped value: the unescape loses nothing. */
  lemma {:induction false} EscapeUnescape(s: string)
    requires '\n' !in s
    ensures Escape(Unescape(s)) == s
    decreases |s|
  {
    if |s| >= 2 && s[0] == '\\' && s[1] == 'n' {
      assert '\n' !in s[2..] by {
        forall k | 0 <= k < |s[2..]| ensures s[2..][k] != '\n' { assert s[2..][k] == s[k + 2]; }
      }
      EscapeUnescape(s[2..]);
      var u := "\n" + Unescape(s[2..]);
      assert u[0] == '\n' && u[1..] == Unescape(s[2..]);
      assert s == "\\n" + s[2..];
    } else if s != [] {
      assert '\n' !in s[1..] by {
        forall k | 0 <= k < |s[1..]| ensures s[1..][k] != '\n' { assert s[1..][k] == s[k + 1]; }
      }
      EscapeUnescape(s[1..]);
      var u := [s[0]] + Unescape(s[1..]);
      assert s[0] in s;
      assert u[0] == s[0] && u[1..] == Unescape(s[1..]);
      assert s == [s[0]] + s[1..];
    }
  }

  /** Unescaping an already unescaped key changes nothing. */
  lemma UnescapeIdempotent(s: string)
    ensures Unescape(Unescape(s)) == Unescape(s)
  {
    UnescapeLeavesNoPairs(s);
    UnescapeWithoutPairs(Unescape(s));
  }

  /** A multi-line key that holds no literal backslash-`n` survives being
      escaped into an environment variable and unescaped again. */
  lemma {:induction false} UnescapeEscape(s: string)
    requires !HasEscapePair(s)
    ensures Unescape(Escape(s)) == s
    decreases |s|
  {
    if s != [] {
      assert !HasEscapePair(s[1..]) by {
        forall k | 0 <= k < |s[1..]| - 1 ensures !(s[1..][k] == '\\' && s[1..][k + 1] == 'n') {
          assert s[1..][k] == s[k + 1] && s[1..][k + 1] == s[k + 2];
        }
      }
      UnescapeEscape(s[1..]);
      var e := Escape(s[1..]);
      if s[0] == '\n' {
        assert Escape(s) == "\\n" + e;
        assert ("\\n" + e)[2..] == e;
      } else {
        assert Escape(s) == [s[0]] + e;
        EscapeHead(s[1..]);
        assert ([s[0]] + e)[1..] == e;
        if |s| >= 2 {
          assert !(s[0] == '\\' && s[1] == 'n');
        }
      }
    }
  }

  lemma EscapeHead(s: string)
    ensures (Escape(s) != [] && Escape(s)[0] == 'n') <==> (s != [] && s[0] == 'n')
  {
  }

  /** The key after loading: `process.env.GOOGLE_PRIVATE_KEY?.replace(...)`.
      It is absent exactly when the variable is, holds no backslash-`n` pair,
      is empty exactly when the variable is, and is the variable itself when
      that holds no pair. */
  function PrivateKey(env: Env): (k: Option<string>)
    ensures k.Some? <==> env.privateKey.Some?
    ensures k.Some? ==> !HasEscapePair(k.value)
    ensures k.Some? ==> (k.value == "" <==> env.privateKey.value == "")
    ensures k.Some? && !HasEscapePair(env.privateKey.value) ==> k.value == env.privateKey.value
  {
    match env.privateKey
    case None => None
    case Some(raw) =>
      UnescapeLeavesNoPairs(raw);
      UnescapeEmptyIff(raw);
      assert !HasEscapePair(raw) ==> Unescape(raw) == raw by {
        if !HasEscapePair(raw) { UnescapeWithoutPairs(raw); }
      }
      Some(Unescape(raw))
  }

  /** A configuration value that passes the handlers' `!value` test. */
  predicate Present(v: Option<string>) {
    v.Some? && v.value != ""
  }

  /** The handlers' configuration check: all three values are truthy, the
      private key being tested after it is unescaped. */
  predicate IsConfigured(env: Env) {
    Present(env.sheetId) && Present(env.serviceAccountEmail) && Present(PrivateKey(env))
  }

  /** Testing the unescaped key is the same as testing the raw variable. */
  lemma ConfiguredIffAllSet(env: Env)
    ensures IsConfigured(env) <==>
      Present(env.sheetId) && Present(env.serviceAccountEmail) && Present(env.privateKey)
  {
  }
}
