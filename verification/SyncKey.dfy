/** internal/dashboard/service.go: the key under which callers share the synchronization of an account. */
module SyncKey {
  import opened Text

  /** The parts of an endpoint and its user that identify an account for synchronization. */
  datatype Identity = Identity(source: string, name: string, url: string, login: string, apiKey: string)

  const NUL := "\0"

  /** `strings.Join` */
  function Join(parts: seq<string>, separator: string): string {
    if parts == [] then ""
    else if |parts| == 1 then parts[0]
    else parts[0] + separator + Join(parts[1..], separator)
  }

  /** `hash` is the digest of the credential in hexadecimal. */
  function SyncAccountKey(id: Identity, hash: string -> string): string {
    Join([id.source, id.name, id.url, Lower(id.login), hash(id.apiKey)], NUL)
  }

  predicate NulFree(s: string) {
    '\0' !in s
  }

  /** How many characters of a text are NUL. */
  function Nuls(s: string): nat {
    if s == "" then 0 else Nuls(s[1..]) + if s[0] == '\0' then 1 else 0
  }

  lemma {:induction false} NulsOfConcat(s: string, t: string)
    ensures Nuls(s + t) == Nuls(s) + Nuls(t)
  {
    if s == "" {
      assert s + t == t;
    } else {
      assert (s + t)[1..] == s[1..] + t;
      NulsOfConcat(s[1..], t);
    }
  }

  lemma {:induction false} NoNuls(s: string)
    ensures Nuls(s) == 0 <==> NulFree(s)
  {
    if s != "" {
      assert s == [s[0]] + s[1..];
      NoNuls(s[1..]);
    }
  }

  /** A joined text has at least the separators, and no other NUL exactly when every part is free of NUL. */
  lemma {:induction false} NulsOfJoin(parts: seq<string>)
    requires parts != []
    ensures Nuls(Join(parts, NUL)) >= |parts| - 1
    ensures Nuls(Join(parts, NUL)) == |parts| - 1 <==> forall x | x in parts :: NulFree(x)
  {
    NoNuls(parts[0]);
    assert parts == [parts[0]] + parts[1..];
    hide NulFree;
    if |parts| > 1 {
      NulsOfJoin(parts[1..]);
      NulsOfConcat(parts[0], NUL);
      NulsOfConcat(parts[0] + NUL, Join(parts[1..], NUL));
      assert Nuls(NUL) == 1;
    }
  }

  lemma NulInLonger(a: string, b: string, c: string, d: string)
    requires a + NUL + b == c + NUL + d && |a| < |c|
    ensures !NulFree(c) && !NulFree(b)
  {
    assert (a + NUL + b)[|a|] == '\0' && (c + NUL + d)[|a|] == c[|a|];
    assert (c + NUL + d)[|c|] == '\0' && (a + NUL + b)[|c|] == b[|c| - |a| - 1];
  }

  lemma SplitAt(a: string, b: string, c: string, d: string)
    requires a + NUL + b == c + NUL + d && |a| == |c|
    ensures a == c && b == d
  {
    assert a == (a + NUL + b)[..|a|] && c == (c + NUL + d)[..|a|];
    assert b == (a + NUL + b)[|a| + 1..] && d == (c + NUL + d)[|a| + 1..];
  }

  /** What stands before the first NUL is determined by the whole text. */
  lemma SplitAtFirst(a: string, b: string, c: string, d: string)
    requires NulFree(a) && NulFree(c) && a + NUL + b == c + NUL + d
    ensures a == c && b == d
  {
    hide NulFree;
    if |a| < |c| {
      NulInLonger(a, b, c, d);
    } else if |c| < |a| {
      NulInLonger(c, d, a, b);
    } else {
      SplitAt(a, b, c, d);
    }
  }

  /** What stands after the last NUL is determined by the whole text. */
  lemma SplitAtLast(a: string, b: string, c: string, d: string)
    requires NulFree(b) && NulFree(d) && a + NUL + b == c + NUL + d
    ensures a == c && b == d
  {
    hide NulFree;
    if |a| < |c| {
      NulInLonger(a, b, c, d);
    } else if |c| < |a| {
      NulInLonger(c, d, a, b);
    } else {
      SplitAt(a, b, c, d);
    }
  }

  lemma {:induction false} FirstNul(s: string) returns (x: string, y: string)
    requires !NulFree(s)
    ensures s == x + NUL + y && NulFree(x)
  {
    if s[0] == '\0' {
      x, y := "", s[1..];
    } else {
      assert s == [s[0]] + s[1..];
      x, y := FirstNul(s[1..]);
      x := [s[0]] + x;
    }
  }

  lemma {:induction false} LastNul(s: string) returns (x: string, y: string)
    requires !NulFree(s)
    ensures s == x + NUL + y && NulFree(y)
  {
    var n := |s| - 1;
    assert s == s[..n] + [s[n]];
    if s[n] == '\0' {
      x, y := s[..n], "";
    } else {
      x, y := LastNul(s[..n]);
      y := y + [s[n]];
    }
  }

  lemma {:induction false} JoinInjective(p: seq<string>, q: seq<string>)
    requires |p| == |q|
    requires forall x | x in p :: NulFree(x)
    requires forall x | x in q :: NulFree(x)
    requires Join(p, NUL) == Join(q, NUL)
    ensures p == q
  {
    hide NulFree;
    if |p| == 1 {
      assert p == [p[0]] && q == [q[0]];
    } else if |p| > 1 {
      SplitAtFirst(p[0], Join(p[1..], NUL), q[0], Join(q[1..], NUL));
      JoinInjective(p[1..], q[1..]);
      assert p == [p[0]] + p[1..] && q == [q[0]] + q[1..];
    }
  }

  // ---- lower case

  lemma LowerNulFree(s: string)
    ensures NulFree(Lower(s)) <==> NulFree(s)
  {
    forall i | 0 <= i < |s|
      ensures Lower(s)[i] == '\0' <==> s[i] == '\0'
    {
    }
    if !NulFree(Lower(s)) {
      var i :| 0 <= i < |s| && Lower(s)[i] == '\0';
      assert s[i] in s;
    }
    if !NulFree(s) {
      var i :| 0 <= i < |s| && s[i] == '\0';
      assert Lower(s)[i] in Lower(s);
    }
  }

  lemma LowerSplit(x: string, y: string)
    ensures Lower(x + NUL + y) == Lower(x) + NUL + Lower(y)
  {
  }

  /** A piece of a lower-case text is in lower case. */
  lemma LowerPiece(login: string, x: string, y: string)
    requires Lower(login) == x + NUL + y
    ensures Lower(x) == x && Lower(y) == y
  {
    var s := x + NUL + y;
    forall i | 0 <= i < |x|
      ensures Lower(x)[i] == x[i]
    {
      assert s[i] == x[i] && Lower(login)[i] == LowerChar(login[i]);
    }
    forall i | 0 <= i < |y|
      ensures Lower(y)[i] == y[i]
    {
      var j := |x| + 1 + i;
      assert s[j] == y[i] && Lower(login)[j] == LowerChar(login[j]);
    }
  }

  // ---- keys

  predicate SameIdentity(a: Identity, b: Identity) {
    a.source == b.source && a.name == b.name && a.url == b.url && Lower(a.login) == Lower(b.login) && a.apiKey == b.apiKey
  }

  predicate SameKey(a: Identity, b: Identity, hash: string -> string) {
    SyncAccountKey(a, hash) == SyncAccountKey(b, hash)
  }

  /** What the real digest is taken to be. */
  ghost predicate Digest(hash: string -> string) {
    && (forall s :: NulFree(hash(s)))
    && (forall s, t :: hash(s) == hash(t) ==> s == t)
  }

  function Parts(id: Identity, hash: string -> string): seq<string> {
    [id.source, id.name, id.url, Lower(id.login), hash(id.apiKey)]
  }

  predicate PartsNulFree(id: Identity) {
    NulFree(id.source) && NulFree(id.name) && NulFree(id.url) && NulFree(id.login)
  }

  /** An account whose parts contain no NUL shares its key with those accounts only, whatever their parts contain, that agree with it in all five parts, the login up to case. */
  lemma KeyIdentifies(a: Identity, b: Identity, hash: string -> string)
    requires PartsNulFree(a) && Digest(hash)
    ensures SameKey(a, b, hash) <==> SameIdentity(a, b)
  {
    hide Join, Lower, NulFree;
    if SameKey(a, b, hash) {
      var p, q := Parts(a, hash), Parts(b, hash);
      LowerNulFree(a.login);
      NulsOfJoin(p);
      NulsOfJoin(q);
      JoinInjective(p, q);
      assert p[0] == q[0] && p[1] == q[1] && p[2] == q[2] && p[3] == q[3] && p[4] == q[4];
    }
  }

  /** The part of a key between the source and the digest. */
  function Middle(id: Identity): string {
    id.name + NUL + id.url + NUL + Lower(id.login)
  }

  lemma KeyIsMiddle(id: Identity, hash: string -> string)
    ensures SyncAccountKey(id, hash) == id.source + NUL + (Middle(id) + NUL + hash(id.apiKey))
  {
    var h := hash(id.apiKey);
    var low := Lower(id.login);
    JoinThree(id.source, id.name, id.url, [low, h]);
    JoinFirst(low, [h]);
    assert [id.source, id.name, id.url] + [low, h] == [id.source, id.name, id.url, low, h];
    assert [low] + [h] == [low, h];
    assert id.name + NUL + (id.url + NUL + (low + NUL + h)) == Middle(id) + NUL + h;
  }

  /** Equal keys mean equal source, credential and middle part. */
  lemma SameKeyParts(a: Identity, b: Identity, hash: string -> string)
    requires NulFree(a.source) && NulFree(b.source) && Digest(hash)
    ensures SameKey(a, b, hash) <==> a.source == b.source && a.apiKey == b.apiKey && Middle(a) == Middle(b)
  {
    KeyIsMiddle(a, hash);
    KeyIsMiddle(b, hash);
    hide SyncAccountKey, Middle, NulFree;
    if SameKey(a, b, hash) {
      SplitAtFirst(a.source, Middle(a) + NUL + hash(a.apiKey), b.source, Middle(b) + NUL + hash(b.apiKey));
      SplitAtLast(Middle(a), hash(a.apiKey), Middle(b), hash(b.apiKey));
    }
  }

  /** No other account shares the key of `a`. Sources and URLs contain no NUL; names and logins may. */
  ghost predicate KeyUnique(a: Identity, hash: string -> string) {
    forall b: Identity | NulFree(b.source) && NulFree(b.url) :: SameKey(a, b, hash) ==> SameIdentity(a, b)
  }

  /** The key of an account is its own exactly when its login contains no NUL, and neither does its name, unless a capital letter in the URL sets it apart. */
  lemma KeyUniqueExactly(a: Identity, hash: string -> string)
    requires NulFree(a.source) && NulFree(a.url) && Digest(hash)
    ensures KeyUnique(a, hash) <==> NulFree(a.login) && (NulFree(a.name) || Lower(a.url) != a.url)
  {
    if !NulFree(a.login) {
      var b := LoginConfused(a, hash);
    } else if !NulFree(a.name) && Lower(a.url) == a.url {
      var b := NameConfused(a, hash);
    } else {
      forall b: Identity | NulFree(b.source) && NulFree(b.url) && SameKey(a, b, hash)
        ensures SameIdentity(a, b)
      {
        SameKeyParts(a, b, hash);
        MiddleIdentifies(a, b);
      }
    }
  }

  lemma LoginConfused(a: Identity, hash: string -> string) returns (b: Identity)
    requires NulFree(a.source) && NulFree(a.url) && Digest(hash) && !NulFree(a.login)
    ensures NulFree(b.source) && NulFree(b.url) && SameKey(a, b, hash) && !SameIdentity(a, b)
  {
    hide NulFree, Lower, SameKey;
    var x, y := FirstNul(a.login);
    LowerSplit(x, y);
    LowerNulFree(x);
    b := a.(name := a.name + NUL + a.url, url := Lower(x), login := y);
    assert Middle(a) == Middle(b);
    SameKeyParts(a, b, hash);
  }

  lemma NameConfused(a: Identity, hash: string -> string) returns (b: Identity)
    requires NulFree(a.source) && NulFree(a.url) && Digest(hash) && !NulFree(a.name) && Lower(a.url) == a.url
    ensures NulFree(b.source) && NulFree(b.url) && SameKey(a, b, hash) && !SameIdentity(a, b)
  {
    hide NulFree, Lower, SameKey;
    var x, y := LastNul(a.name);
    LowerSplit(a.url, a.login);
    b := a.(name := x, url := y, login := a.url + NUL + a.login);
    assert Middle(a) == Middle(b);
    SameKeyParts(a, b, hash);
  }

  lemma MiddleIdentifies(a: Identity, b: Identity)
    requires NulFree(a.url) && NulFree(b.url) && Middle(a) == Middle(b)
    requires NulFree(a.login) && (NulFree(a.name) || Lower(a.url) != a.url)
    ensures a.name == b.name && a.url == b.url && Lower(a.login) == Lower(b.login)
  {
    hide NulFree, Lower;
    LowerNulFree(a.login);
    if NulFree(Lower(b.login)) {
      SplitAtLast(a.name + NUL + a.url, Lower(a.login), b.name + NUL + b.url, Lower(b.login));
      SplitAtLast(a.name, a.url, b.name, b.url);
    } else {
      var x, y := LastNul(Lower(b.login));
      LowerPiece(b.login, x, y);
      assert b.name + NUL + b.url + NUL + (x + NUL + y) == (b.name + NUL + b.url + NUL + x) + NUL + y;
      SplitAtLast(a.name + NUL + a.url, Lower(a.login), b.name + NUL + b.url + NUL + x, y);
      UrlInLogin(a, b, x);
    }
  }

  /** If the URL of `a` lies within the login of `b`, it is in lower case, and the name of `a` contains NUL. */
  lemma UrlInLogin(a: Identity, b: Identity, x: string)
    requires NulFree(a.url) && Lower(x) == x && a.name + NUL + a.url == b.name + NUL + b.url + NUL + x
    ensures Lower(a.url) == a.url && !NulFree(a.name)
  {
    if NulFree(x) {
      SplitAtLast(a.name, a.url, b.name + NUL + b.url, x);
      assert a.name[|b.name|] == '\0';
    } else {
      var u, v := LastNul(x);
      LowerPiece(x, u, v);
      assert b.name + NUL + b.url + NUL + (u + NUL + v) == (b.name + NUL + b.url + NUL + u) + NUL + v;
      SplitAtLast(a.name, a.url, b.name + NUL + b.url + NUL + u, v);
      assert a.name[|b.name|] == '\0';
    }
  }

  /** Two endpoints of a YAML file with a NUL in a name and in a login: different identities that share a key. */
  lemma KeyConfusesNul(hash: string -> string)
    ensures var a, b := Identity("yaml", "x" + NUL + "http://h", "http://g", "l", "k"), Identity("yaml", "x", "http://h", "http://g" + NUL + "l", "k");
      SameKey(a, b, hash) && !SameIdentity(a, b)
  {
    var a, b := Identity("yaml", "x" + NUL + "http://h", "http://g", "l", "k"), Identity("yaml", "x", "http://h", "http://g" + NUL + "l", "k");
    KeyIsMiddle(a, hash);
    KeyIsMiddle(b, hash);
    LowerSplit("http://g", "l");
    assert Lower("http://g") == "http://g";
    hide Lower;
    assert Middle(a) == Middle(b);
    assert |a.name| != |b.name|;
  }

  /** A NUL in a name does no harm when the URL has a capital letter in its path, as logins enter the key in lower case. */
  lemma CapitalSetsApart(hash: string -> string)
    requires Digest(hash)
    ensures KeyUnique(Identity("yaml", "x" + NUL + "http://h", "http://g/A", "l", "k"), hash)
  {
    var a := Identity("yaml", "x" + NUL + "http://h", "http://g/A", "l", "k");
    assert Lower(a.url)[9] == 'a' && a.url[9] == 'A';
    KeyUniqueExactly(a, hash);
  }

  lemma JoinFirst(first: string, rest: seq<string>)
    requires rest != []
    ensures Join([first] + rest, NUL) == first + NUL + Join(rest, NUL)
  {
    assert ([first] + rest)[1..] == rest;
  }

  lemma JoinThree(a: string, b: string, c: string, rest: seq<string>)
    requires rest != []
    ensures Join([a, b, c] + rest, NUL) == a + NUL + (b + NUL + (c + NUL + Join(rest, NUL)))
  {
    JoinFirst(c, rest);
    JoinFirst(b, [c] + rest);
    JoinFirst(a, [b] + ([c] + rest));
    assert [a, b, c] + rest == [a] + ([b] + ([c] + rest));
  }
}
