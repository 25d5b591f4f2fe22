/** The AUTH_REQ payload and the credential test
    (include/hiim/wire/auth.hpp, src/hub/reactor.cpp). */
module Auth {
  import opened Bytes
  import Wire

  const USER_LEN: nat := 32
  const PASS_LEN: nat := 16
  const PAYLOAD_SIZE: nat := 56
  const AUTH_REQ: U32 := 0x0001

  /** `user` and `passwd` are the fixed-size, zero-padded fields. */
  datatype AuthPayload = AuthPayload(gid: U32, user: seq<Byte>, passwd: seq<Byte>, nid: U32)

  function Min(a: nat, b: nat): nat {
    if a < b then a else b
  }

  /** At most `width` bytes of `s`, padded with zeros. */
  function Padded(s: seq<Byte>, width: nat): (r: seq<Byte>)
    ensures |r| == width
  {
    seq(width, i requires 0 <= i < width => if i < |s| then s[i] else 0)
  }

  /** The bytes before the first zero, as `strnlen` delimits them. */
  function CString(s: seq<Byte>): (r: seq<Byte>)
    ensures r <= s && 0 !in r
    ensures |r| < |s| ==> s[|r|] == 0
  {
    if s == [] || s[0] == 0 then [] else [s[0]] + CString(s[1..])
  }

  /** Zero-fills a fixed-size field and copies as much of `text` as fits. */
  method FillField(field: array<Byte>, text: seq<Byte>)
    modifies field
    ensures field[..] == Padded(text, field.Length)
  {
    forall i | 0 <= i < field.Length {
      field[i] := 0;
    }
    if text != [] {
      forall i | 0 <= i < Min(|text|, field.Length) {
        field[i] := text[i];
      }
    }
  }

  method MakeAuthPayload(gid: U32, user: seq<Byte>, passwd: seq<Byte>, nid: U32) returns (p: AuthPayload)
    ensures p == AuthPayload(gid, Padded(user, USER_LEN), Padded(passwd, PASS_LEN), nid)
    ensures |p.user| == 32 && forall i :: 0 <= i < 32 ==> p.user[i] == if i < |user| then user[i] else 0
    ensures |p.passwd| == 16 && forall i :: 0 <= i < 16 ==> p.passwd[i] == if i < |passwd| then passwd[i] else 0
  {
    var u := new Byte[USER_LEN];
    var w := new Byte[PASS_LEN];
    FillField(u, user);
    FillField(w, passwd);
    p := AuthPayload(gid, u[..], w[..], nid);
  }

  function PayloadBytes(p: AuthPayload): seq<Byte> {
    Be32(p.gid) + p.user + p.passwd + Be32(p.nid)
  }

  /** `None` when the payload is short; extra bytes are ignored. */
  function DecodeAuthPayload(s: seq<Byte>): (r: Option<AuthPayload>)
    ensures r.Some? <==> |s| >= PAYLOAD_SIZE
  {
    if |s| < PAYLOAD_SIZE then None
    else Some(AuthPayload(FromBe32(s[0..4]), s[4..36], s[36..52], FromBe32(s[52..56])))
  }

  predicate CredentialsMatch(cfgUser: seq<Byte>, cfgPass: seq<Byte>, p: AuthPayload) {
    CString(p.user) == cfgUser && CString(p.passwd) == cfgPass
  }

  function EncodeAuthFrame(gid: U32, user: seq<Byte>, passwd: seq<Byte>, nid: U32): seq<Byte> {
    Wire.EncodeFrame(AUTH_REQ, nid, Wire.FLAG_SYS,
                     PayloadBytes(AuthPayload(gid, Padded(user, USER_LEN), Padded(passwd, PASS_LEN), nid)))
  }

  /** The 56 bytes of an AUTH payload: gid, user, password, node id. */
  lemma PayloadLayout(p: AuthPayload)
    requires |p.user| == 32 && |p.passwd| == 16
    ensures var s := PayloadBytes(p);
            && |s| == 56 && s[4..36] == p.user && s[36..52] == p.passwd
            && p.gid == Word(s, 0)
            && p.nid == Word(s, 52)
  {
    Be32Is(p.gid);
    Be32Is(p.nid);
    hide Be32;
  }

  /** The fields a decoder finds, read off the bytes. */
  lemma DecodeLayout(s: seq<Byte>)
    ensures |s| < 56 ==> DecodeAuthPayload(s) == None
    ensures |s| >= 56 ==>
              && DecodeAuthPayload(s).Some?
              && var p := DecodeAuthPayload(s).value;
              && p.user == s[4..36] && p.passwd == s[36..52]
              && p.gid == Word(s, 0)
              && p.nid == Word(s, 52)
  {
    if |s| >= 56 {
      FourDigits(s[0..4]);
      FourDigits(s[52..56]);
      hide FromBe32;
    }
  }

  lemma DecodeEncoded(p: AuthPayload, extra: seq<Byte>)
    requires |p.user| == USER_LEN && |p.passwd| == PASS_LEN
    ensures DecodeAuthPayload(PayloadBytes(p) + extra) == Some(p)
  {
    var s := PayloadBytes(p) + extra;
    assert s[0..4] == Be32(p.gid);
    assert s[4..36] == p.user;
    assert s[36..52] == p.passwd;
    assert s[52..56] == Be32(p.nid);
    Be32Inverse(p.gid);
    Be32Inverse(p.nid);
  }

  /** Two ways of cutting a string at its first zero agree. */
  lemma CStringUnique(s: seq<Byte>, r: seq<Byte>)
    requires r <= s && 0 !in r && (|r| < |s| ==> s[|r|] == 0)
    ensures CString(s) == r
  {
  }

  /** What survives of a field: its first `width` bytes, cut at a zero. */
  lemma CStringPadded(text: seq<Byte>, width: nat)
    ensures CString(Padded(text, width)) == CString(text[..Min(|text|, width)])
  {
    var cut := text[..Min(|text|, width)];
    var r := CString(cut);
    assert cut <= Padded(text, width);
    CStringUnique(Padded(text, width), r);
  }

  /** The frame a client builds is accepted exactly when the truncated, zero-terminated
      user and password equal the configured ones. Then the hub sees the client's gid and nid. */
  lemma AuthAcceptedIff(cfgUser: seq<Byte>, cfgPass: seq<Byte>, gid: U32, user: seq<Byte>, passwd: seq<Byte>,
                        nid: U32, rest: seq<Byte>)
    ensures var o := Wire.Pop(EncodeAuthFrame(gid, user, passwd, nid) + rest);
            && o.Got? && o.rest == rest && o.frame.typ == 1 && o.frame.flag == 0 && o.frame.nid == nid
            && var d := DecodeAuthPayload(o.frame.payload);
            && d.Some? && d.value.gid == gid && d.value.nid == nid
            && (CredentialsMatch(cfgUser, cfgPass, d.value) <==>
                && cfgUser == CString(user[..Min(|user|, USER_LEN)])
                && cfgPass == CString(passwd[..Min(|passwd|, PASS_LEN)]))
  {
    var p := AuthPayload(gid, Padded(user, USER_LEN), Padded(passwd, PASS_LEN), nid);
    Wire.PopEncoded(Wire.Frame(AUTH_REQ, nid, Wire.FLAG_SYS, PayloadBytes(p)), rest);
    assert PayloadBytes(p) + [] == PayloadBytes(p);
    DecodeEncoded(p, []);
    CStringPadded(user, USER_LEN);
    CStringPadded(passwd, PASS_LEN);
  }

  /** A configured user longer than its field, or holding a zero byte, can never be matched. */
  lemma UnmatchableConfig(cfgUser: seq<Byte>, cfgPass: seq<Byte>)
    ensures (exists p: AuthPayload ::
               |p.user| == USER_LEN && |p.passwd| == PASS_LEN && CredentialsMatch(cfgUser, cfgPass, p))
            <==> |cfgUser| <= USER_LEN && |cfgPass| <= PASS_LEN && 0 !in cfgUser && 0 !in cfgPass
  {
    if |cfgUser| <= USER_LEN && |cfgPass| <= PASS_LEN && 0 !in cfgUser && 0 !in cfgPass {
      var p := AuthPayload(0, Padded(cfgUser, USER_LEN), Padded(cfgPass, PASS_LEN), 0);
      CStringUnique(p.user, cfgUser);
      CStringUnique(p.passwd, cfgPass);
      assert CredentialsMatch(cfgUser, cfgPass, p);
    }
  }
}
