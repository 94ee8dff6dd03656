/**
 The object-key layout of the image pipeline, as text. Upload keys parse back to what they were built
 from, and two different main keys never share a rendition.
 */
module ImageKeys {
  import opened Options
  import opened Text

  const UPLOADS: string := "uploads"
  const PUBLIC: string := "public"
  const WEBP: string := ".webp"
  const THUMBS: seq<string> := ["thumb_256", "thumb_64"]

  function UploadKey(product: string, token: string): string
  {
    UPLOADS + "/" + product + "/" + token + ".bin"
  }

  function MainKey(product: string, token: string, version: string): string
  {
    PUBLIC + "/" + product + "/" + token + "_" + version + WEBP
  }

  function ThumbKey(product: string, token: string, version: string, name: string): string
  {
    PUBLIC + "/" + product + "/" + token + "_" + version + "_" + name + WEBP
  }

  predicate EndsWith(s: string, suffix: string)
  {
    |s| >= |suffix| && s[|s| - |suffix|..] == suffix
  }

  /** Every object written for one main key; nothing for a key the worker did not write. */
  function Renditions(mainKey: string): seq<string>
  {
    if !EndsWith(mainKey, WEBP) then []
    else
      var stem := mainKey[..|mainKey| - |WEBP|];
      [mainKey, stem + "_" + THUMBS[0] + WEBP, stem + "_" + THUMBS[1] + WEBP]
  }

  /** Text before the last dot, or all of it. */
  function DropExtension(s: string): string
  {
    if s == [] then []
    else if '.' in s[1..] || s[0] != '.' then (if '.' in s then [s[0]] + DropExtension(s[1..]) else s)
    else []
  }

  // ---------------------------------------------------------------- upload keys

  /** The canonical text of a product id: 36 characters, hex but for four hyphens. */
  predicate ProductId(s: string)
  {
    |s| == 36 && forall i | 0 <= i < 36 :: if i == 8 || i == 13 || i == 18 || i == 23 then s[i] == '-' else IsHex(s[i])
  }

  function ParseUploadKey(key: string): Option<(string, string)>
  {
    var parts := Split(key, '/');
    if |parts| != 3 || parts[0] != UPLOADS || !ProductId(parts[1]) then None
    else Some((parts[1], DropExtension(parts[2])))
  }

  lemma {:induction false} DropBin(token: string)
    requires Lacks(token, '.')
    ensures DropExtension(token + ".bin") == token
  {
    if token == [] {
      assert token + ".bin" == ".bin" && ".bin"[1..] == "bin" && ".bin"[0] == '.';
    } else {
      var s := token + ".bin";
      assert s[1..] == token[1..] + ".bin" && '.' in s[1..] by {
        assert s[1..][|token| - 1] == '.';
      }
      DropBin(token[1..]);
      assert s[|token|] == '.';
      assert [token[0]] + token[1..] == token;
    }
  }

  lemma UploadParts(product: string, token: string)
    requires Lacks(product, '/') && Lacks(token + ".bin", '/')
    ensures Split(UploadKey(product, token), '/') == [UPLOADS, product, token + ".bin"]
  {
    hide Split, UpTo;
    var last := token + ".bin";
    assert Lacks(UPLOADS, '/');
    assert UploadKey(product, token) == UPLOADS + ['/'] + (product + ['/'] + last);
    SplitPiece(UPLOADS, product + ['/'] + last, '/');
    SplitPiece(product, last, '/');
    SplitLast(last, '/');
  }

  /** What was built is what is read back. */
  lemma UploadRoundTrip(product: string, token: string)
    requires ProductId(product) && Hex(token)
    ensures ParseUploadKey(UploadKey(product, token)) == Some((product, token))
  {
    assert Lacks(product, '/') && Lacks(token, '.') && Lacks(token + ".bin", '/');
    hide Split, DropExtension, ProductId, Hex, UploadKey;
    UploadParts(product, token);
    DropBin(token);
  }

  lemma {:induction false} DropExtensionPrefix(s: string)
    ensures var t := DropExtension(s); t <= s && (t == s || (s[|t|] == '.' && Lacks(s[|t| + 1..], '.')))
    ensures DropExtension(s) == s ==> Lacks(s, '.')
  {
    if s != [] {
      DropExtensionPrefix(s[1..]);
      assert s == [s[0]] + s[1..];
    }
  }

  /**
   Nothing else is accepted: a key that parses has the upload prefix, that product, and that token before
   its last dot.
   */
  lemma ParsedKeysHaveTheLayout(key: string)
    requires ParseUploadKey(key).Some?
    ensures var (product, token) := ParseUploadKey(key).value;
            var stem := UPLOADS + "/" + product + "/" + token;
            && ProductId(product) && Lacks(token, '/') && stem <= key
            && (key == stem || (key[|stem|] == '.' && Lacks(key[|stem| + 1..], '.') && Lacks(key[|stem| + 1..], '/')))
  {
    var parts := Split(key, '/');
    SplitJoins(key, '/');
    DropExtensionPrefix(parts[2]);
    var token := DropExtension(parts[2]);
    var stem := UPLOADS + "/" + parts[1] + "/" + token;
    assert key == UPLOADS + "/" + parts[1] + "/" + parts[2];
    assert stem <= key;
    assert key[|stem|..] == parts[2][|token|..];
    assert token != parts[2] ==> key[|stem| + 1..] == parts[2][|token| + 1..];
  }

  // ---------------------------------------------------------------- renditions

  /** Reads product, token and version back from any rendition. */
  function Owner(rendition: string): (string, string, string)
    requires |rendition| >= |PUBLIC| + 1
  {
    var rest := rendition[|PUBLIC| + 1..];
    var product := UpTo(rest, {'/'});
    var afterProduct := if |product| < |rest| then rest[|product| + 1..] else [];
    var token := UpTo(afterProduct, {'_'});
    var afterToken := if |token| < |afterProduct| then afterProduct[|token| + 1..] else [];
    (product, token, UpTo(afterToken, {'_', '.'}))
  }

  lemma {:induction false} OwnerOf(product: string, token: string, version: string, tail: string)
    requires ProductId(product) && Hex(token) && Hex(version) && tail != [] && (tail[0] == '_' || tail[0] == '.')
    ensures var s := PUBLIC + "/" + product + "/" + token + "_" + version + tail;
            |s| >= |PUBLIC| + 1 && Owner(s) == (product, token, version)
  {
    hide UpTo, Hex, ProductId;
    PlainText(product, token, version);
    var s := PUBLIC + "/" + product + "/" + token + "_" + version + tail;
    var afterToken := version + tail;
    var afterProduct := token + ['_'] + afterToken;
    Regroup(product, token, version, tail);
    assert s[|PUBLIC| + 1..] == product + ['/'] + afterProduct;
    Field(product, afterProduct, '/');
    Field(token, afterToken, '_');
    UpToStops(version, tail, {'_', '.'});
  }

  lemma PlainText(product: string, token: string, version: string)
    requires ProductId(product) && Hex(token) && Hex(version)
    ensures Lacks(product, '/') && Lacks(token, '_') && forall c | c in version :: c !in {'_', '.'}
  {
  }

  lemma Regroup(product: string, token: string, version: string, tail: string)
    ensures PUBLIC + "/" + product + "/" + token + "_" + version + tail
         == (PUBLIC + "/") + (product + ['/'] + (token + ['_'] + (version + tail)))
  {
  }

  /** The renditions of a worker-written key: the main image and its two thumbnails, under their own names. */
  lemma RenditionsOf(product: string, token: string, version: string)
    ensures Renditions(MainKey(product, token, version))
         == [MainKey(product, token, version), ThumbKey(product, token, version, THUMBS[0]),
             ThumbKey(product, token, version, THUMBS[1])]
  {
    var main := MainKey(product, token, version);
    var stem := PUBLIC + "/" + product + "/" + token + "_" + version;
    assert main == stem + WEBP;
    assert main[|main| - |WEBP|..] == WEBP && main[..|main| - |WEBP|] == stem;
  }

  lemma EveryRenditionNamesItsOwner(product: string, token: string, version: string, r: string)
    requires ProductId(product) && Hex(token) && Hex(version) && r in Renditions(MainKey(product, token, version))
    ensures |r| >= |PUBLIC| + 1 && Owner(r) == (product, token, version)
  {
    RenditionsOf(product, token, version);
    var stem := PUBLIC + "/" + product + "/" + token + "_" + version;
    if r == MainKey(product, token, version) {
      OwnerOf(product, token, version, WEBP);
    } else {
      var name := if r == ThumbKey(product, token, version, THUMBS[0]) then THUMBS[0] else THUMBS[1];
      var tail := "_" + name + WEBP;
      assert r == stem + tail;
      OwnerOf(product, token, version, tail);
    }
  }

  /** Two worker-written keys with a rendition in common are one key. */
  lemma RenditionsDisjoint(p: string, t: string, v: string, p': string, t': string, v': string, r: string)
    requires ProductId(p) && Hex(t) && Hex(v) && ProductId(p') && Hex(t') && Hex(v')
    requires r in Renditions(MainKey(p, t, v)) && r in Renditions(MainKey(p', t', v'))
    ensures p == p' && t == t' && v == v'
  {
    EveryRenditionNamesItsOwner(p, t, v, r);
    EveryRenditionNamesItsOwner(p', t', v', r);
  }
}
