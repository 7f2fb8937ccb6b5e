/** Relay frames: a JSON header, optionally followed by a NUL byte and a binary payload, and the
    rewriting of the header at each hop. */
module Frames {

  datatype Option<+T> = None | Some(value: T)

  type Byte = x: int | 0 <= x < 256

  datatype Json =
    | Null
    | Bool(b: bool)
    | Num(n: int)
    | Str(s: string)
    | Arr(items: seq<Json>)
    | Obj(fields: seq<Field>)

  datatype Field = Field(name: string, value: Json)

  /** The fields of a parsed header object. */
  type Header = map<string, Json>

  /** A web-socket message as the handlers see it. */
  datatype Message = Message(binary: bool, data: seq<Byte>)

  /** JSON.stringify to UTF-8 and its inverse.  Parsing fails on anything that is not a JSON object. */
  datatype Codec = Codec(stringify: Header -> seq<Byte>, parse: seq<Byte> -> Option<Header>) {
    /** What RFC 8259 gives: printing is inverted by parsing; no text with a NUL byte parses, since control
        characters are neither white space (section 2) nor allowed unescaped in strings (section 7); and a
        printed object begins with its brace. */
    ghost predicate Sound() {
      && (forall h: Header :: parse(stringify(h)) == Some(h) && stringify(h) != [] && stringify(h)[0] == BRACE)
      && (forall b: seq<Byte> :: parse(b).Some? ==> 0 !in b)
    }
  }

  const BRACE: Byte := 0x7b

  const PATH := "_path"
  const GID := "_gid"
  const AID := "_aid"
  const PERMISSION := "p"
  const S2S := "s2s_auth"

  // ----- Framing

  /** Buffer.indexOf(0): the position of the first NUL byte, or the length when there is none. */
  function NulIndex(data: seq<Byte>): (i: nat)
    ensures i <= |data| && 0 !in data[..i]
    ensures i < |data| ==> data[i] == 0
  {
    if data == [] || data[0] == 0 then 0 else 1 + NulIndex(data[1..])
  }

  function HeaderBytes(m: Message): seq<Byte> { if m.binary then m.data[..NulIndex(m.data)] else m.data }

  /** The NUL byte and everything after it, or nothing. */
  function PayloadBytes(m: Message): seq<Byte> { if m.binary then m.data[NulIndex(m.data)..] else [] }

  function Parse(codec: Codec, m: Message): Option<Header> { codec.parse(HeaderBytes(m)) }

  /** The message rebuilt with another header and the original NUL and payload. */
  function Rebuild(codec: Codec, m: Message, h: Header): Message {
    Message(m.binary, codec.stringify(h) + PayloadBytes(m))
  }

  lemma {:induction false} NulIndexOfJoin(a: seq<Byte>, b: seq<Byte>)
    requires 0 !in a && (b == [] || b[0] == 0)
    ensures NulIndex(a + b) == |a|
  {
    if a == [] {
      assert a + b == b;
    } else {
      assert a[0] in a && (a + b)[1..] == a[1..] + b;
      NulIndexOfJoin(a[1..], b);
    }
  }

  lemma PrintedHasNoNul(codec: Codec, h: Header)
    requires codec.Sound()
    ensures 0 !in codec.stringify(h)
  {
    assert codec.parse(codec.stringify(h)).Some?;
  }

  /** Splitting a rebuilt message finds the same boundary again: the new header and the old payload. */
  lemma RebuildSplits(codec: Codec, m: Message, h: Header)
    requires codec.Sound()
    ensures Parse(codec, Rebuild(codec, m, h)) == Some(h)
    ensures PayloadBytes(Rebuild(codec, m, h)) == PayloadBytes(m)
  {
    PrintedHasNoNul(codec, h);
    var head, tail := codec.stringify(h), PayloadBytes(m);
    if m.binary {
      NulIndexOfJoin(head, tail);
      assert (head + tail)[..|head|] == head;
      assert (head + tail)[|head|..] == tail;
    } else {
      assert head + [] == head;
    }
  }

  // ----- What a relay receives

  /** Both relay receivers tell text from binary by the type of the message, which is a buffer either way:
      every received frame counts as binary. */
  function Received(m: Message): Message { Message(true, m.data) }

  /** A text that parses has no NUL byte, so it reads the same as binary and has no payload. */
  lemma ReceivedReadsSame(codec: Codec, m: Message, h: Header)
    requires codec.Sound() && Parse(codec, m) == Some(h)
    ensures Parse(codec, Received(m)) == Some(h) && PayloadBytes(Received(m)) == PayloadBytes(m)
  {
    if !m.binary {
      NulIndexOfJoin(m.data, []);
      assert m.data + [] == m.data;
      assert m.data[..|m.data|] == m.data && m.data[|m.data|..] == [];
    }
  }

  // ----- Handshake envelopes

  /** The header carries a handshake field that is not null. */
  predicate Enveloped(h: Header) { S2S in h && h[S2S] != Null }

  /** fn_parseEnvelope: the whole message, payload and all, is one JSON object with such a field. */
  function ParseEnvelope(codec: Codec, m: Message): Option<Header> {
    if m.data == [] || m.data[0] != BRACE then None
    else
      match codec.parse(m.data)
      case None => None
      case Some(h) => if Enveloped(h) then Some(h) else None
  }

  /** A printed frame is taken for an envelope if and only if its header has the field and it has no payload. */
  lemma EnvelopeIffFieldAndNoPayload(codec: Codec, m: Message, h: Header)
    requires codec.Sound() && (PayloadBytes(m) == [] || PayloadBytes(m)[0] == 0)
    ensures ParseEnvelope(codec, Rebuild(codec, m, h)).Some? <==>
              "s2s_auth" in h && h["s2s_auth"] != Null && PayloadBytes(m) == []
  {
    var head, tail := codec.stringify(h), PayloadBytes(m);
    if tail == [] {
      assert head + tail == head;
    } else {
      assert (head + tail)[|head|] == 0;
    }
  }

  // ----- The path

  /** Array.isArray(v_jmsg._path), and an empty array otherwise. */
  function PathOf(h: Header): seq<Json> { if PATH in h && h[PATH].Arr? then h[PATH].items else [] }

  /** The entries of a path that can equal a server id. */
  function IdsIn(path: seq<Json>): seq<string> {
    if path == [] then [] else (if path[0].Str? then [path[0].s] else []) + IdsIn(path[1..])
  }

  function PathIds(h: Header): seq<string> { IdsIn(PathOf(h)) }

  /** v_jmsg._path.includes(id) */
  predicate Visited(h: Header, id: string) { Str(id) in PathOf(h) }

  function Stamp(h: Header, id: string): Header { h[PATH := Arr(PathOf(h) + [Str(id)])] }

  /** The sender's room, when it is in one. */
  datatype Scope = Scope(gid: string, aid: string)

  function StampOrigin(h: Header, id: string, room: Option<Scope>): Header {
    var s := Stamp(h, id);
    if room.Some? then s[GID := Str(room.value.gid)][AID := Str(room.value.aid)] else s
  }

  lemma {:induction false} IdsInConcat(a: seq<Json>, b: seq<Json>)
    ensures IdsIn(a + b) == IdsIn(a) + IdsIn(b)
  {
    if a == [] {
      assert a + b == b;
    } else {
      assert (a + b)[1..] == a[1..] + b;
      IdsInConcat(a[1..], b);
    }
  }

  lemma {:induction false} IncludesIsMembership(path: seq<Json>, id: string)
    ensures Str(id) in path <==> id in IdsIn(path)
  {
    if path != [] {
      IncludesIsMembership(path[1..], id);
      assert path == [path[0]] + path[1..];
    }
  }

  /** A stamped header shows the id to every later path check and keeps all ids before it in order. */
  lemma StampExtendsPath(h: Header, id: string)
    ensures PathIds(Stamp(h, id)) == PathIds(h) + [id]
    ensures forall x :: Visited(Stamp(h, id), x) <==> x in PathIds(h) + [id]
  {
    IdsInConcat(PathOf(h), [Str(id)]);
    assert IdsIn([Str(id)]) == [id] + IdsIn([]);
    forall x ensures Visited(Stamp(h, id), x) <==> x in PathIds(h) + [id] {
      IncludesIsMembership(PathOf(Stamp(h, id)), x);
    }
  }

  // ----- The handlers' rewriting of a message

  /** fn_parseMessage: the server writes the sender's permission into the header. */
  function Permitted(codec: Codec, m: Message, h: Header, prm: Json): Message {
    Rebuild(codec, m, h[PERMISSION := prm])
  }

  /** forwardMessage; a message that cannot be parsed goes out unchanged. */
  function StampedByOrigin(codec: Codec, m: Message, id: string, room: Option<Scope>): Message {
    match Parse(codec, m)
    case None => m
    case Some(h) => Rebuild(codec, m, StampOrigin(h, id, room))
  }

  /** forwardExternalMessage */
  function StampedByRelay(codec: Codec, m: Message, id: string): Message {
    match Parse(codec, m)
    case None => m
    case Some(h) => Rebuild(codec, m, Stamp(h, id))
  }

  /** What the servers `ids` send on, one after the other. */
  function Hops(codec: Codec, m: Message, ids: seq<string>): Message
    decreases |ids|
  {
    if ids == [] then m else Hops(codec, StampedByRelay(codec, Received(m), ids[0]), ids[1..])
  }

  ghost predicate SameBut(h: Header, h': Header, names: set<string>) {
    forall n | n !in names :: (n in h <==> n in h') && (n in h ==> h[n] == h'[n])
  }

  /** The message is the print of the header with a payload from the first NUL on. */
  predicate Printed(codec: Codec, m: Message, h: Header) { m == Rebuild(codec, m, h) }

  lemma RebuildIsPrinted(codec: Codec, m: Message, h: Header)
    requires codec.Sound()
    ensures Printed(codec, Rebuild(codec, m, h), h)
  {
    RebuildSplits(codec, m, h);
  }

  lemma PayloadStartsWithNul(m: Message)
    ensures PayloadBytes(m) == [] || PayloadBytes(m)[0] == 0
  {
  }

  /** One hop: the payload and every field but the path stay, one id is added, the frame is binary now. */
  lemma HopKeepsAllButPath(codec: Codec, m: Message, h: Header, id: string)
    requires codec.Sound() && Parse(codec, m) == Some(h)
    ensures var out := StampedByRelay(codec, Received(m), id);
      && out.binary && PayloadBytes(out) == PayloadBytes(m)
      && Parse(codec, out) == Some(Stamp(h, id)) && Printed(codec, out, Stamp(h, id))
  {
    ReceivedReadsSame(codec, m, h);
    RebuildSplits(codec, Received(m), Stamp(h, id));
    RebuildIsPrinted(codec, Received(m), Stamp(h, id));
  }

  function StampAll(h: Header, ids: seq<string>): Header
    decreases |ids|
  {
    if ids == [] then h else StampAll(Stamp(h, ids[0]), ids[1..])
  }

  lemma {:induction false} StampAllKeepsFields(h: Header, ids: seq<string>)
    ensures SameBut(h, StampAll(h, ids), {PATH}) && PathIds(StampAll(h, ids)) == PathIds(h) + ids
    decreases |ids|
  {
    if ids != [] {
      StampExtendsPath(h, ids[0]);
      StampAllKeepsFields(Stamp(h, ids[0]), ids[1..]);
      assert PathIds(h) + [ids[0]] + ids[1..] == PathIds(h) + ids;
    }
  }

  lemma {:induction false} HopsStampAll(codec: Codec, m: Message, h: Header, ids: seq<string>)
    requires codec.Sound() && Parse(codec, m) == Some(h)
    ensures PayloadBytes(Hops(codec, m, ids)) == PayloadBytes(m)
    ensures Hops(codec, m, ids).binary == (m.binary || ids != [])
    ensures Parse(codec, Hops(codec, m, ids)) == Some(StampAll(h, ids))
    ensures Printed(codec, m, h) ==> Printed(codec, Hops(codec, m, ids), StampAll(h, ids))
    decreases |ids|
  {
    if ids != [] {
      HopKeepsAllButPath(codec, m, h, ids[0]);
      HopsStampAll(codec, StampedByRelay(codec, Received(m), ids[0]), Stamp(h, ids[0]), ids[1..]);
    }
  }

  /** Over any number of hops the payload after the first NUL stays byte-identical, NULs inside it
      included, every header field but the path stays as it was, and from the first hop on every frame is
      binary, text frames included. */
  lemma HopsKeepAllButPath(codec: Codec, m: Message, h: Header, ids: seq<string>)
    requires codec.Sound() && Parse(codec, m) == Some(h)
    ensures PayloadBytes(Hops(codec, m, ids)) == PayloadBytes(m)
    ensures Hops(codec, m, ids).binary == (m.binary || ids != [])
    ensures Parse(codec, Hops(codec, m, ids)).Some?
    ensures var h' := Parse(codec, Hops(codec, m, ids)).value; SameBut(h, h', {PATH}) && PathIds(h') == PathIds(h) + ids
    ensures Printed(codec, m, h) ==> Printed(codec, Hops(codec, m, ids), Parse(codec, Hops(codec, m, ids)).value)
  {
    HopsStampAll(codec, m, h, ids);
    StampAllKeepsFields(h, ids);
  }

  /** The room fields are the server's own when the sender is in a room, and otherwise the client's. */
  predicate RoomFields(h: Header, h': Header, room: Option<Scope>) {
    match room
    case Some(r) => "_gid" in h' && h'["_gid"] == Str(r.gid) && "_aid" in h' && h'["_aid"] == Str(r.aid)
    case None =>
      && ("_gid" in h <==> "_gid" in h') && ("_gid" in h ==> h'["_gid"] == h["_gid"])
      && ("_aid" in h <==> "_aid" in h') && ("_aid" in h ==> h'["_aid"] == h["_aid"])
  }

  lemma OriginStamps(codec: Codec, m: Message, h: Header, prm: Json, origin: string, room: Option<Scope>)
    requires codec.Sound() && Parse(codec, m) == Some(h)
    ensures var h2 := StampOrigin(h[PERMISSION := prm], origin, room);
      var out := StampedByOrigin(codec, Permitted(codec, m, h, prm), origin, room);
      && Parse(codec, out) == Some(h2) && Printed(codec, out, h2)
      && PayloadBytes(out) == PayloadBytes(m) && out.binary == m.binary
      && PathIds(h2) == PathIds(h) + [origin]
  {
    var h1, m1 := h[PERMISSION := prm], Permitted(codec, m, h, prm);
    RebuildSplits(codec, m, h1);
    RebuildSplits(codec, m1, StampOrigin(h1, origin, room));
    RebuildIsPrinted(codec, m1, StampOrigin(h1, origin, room));
    StampExtendsPath(h1, origin);
    assert PathOf(StampOrigin(h1, origin, room)) == PathOf(Stamp(h1, origin));
    assert PathOf(h1) == PathOf(h);
  }

  /** From the client's frame to any later hop: payload intact, only `p`, `_path`, `_gid` and `_aid`
      rewritten, the permission the server's own, the room the server's own exactly when the sender is in
      one, and the path the client's followed by exactly the ids of the servers passed.  A child takes the
      frame for a handshake envelope if and only if the client's header has the field and no payload. */
  lemma RelayedFrame(
      codec: Codec, m: Message, h: Header, prm: Json, origin: string, room: Option<Scope>, ids: seq<string>)
    requires codec.Sound() && Parse(codec, m) == Some(h)
    ensures var out := Hops(codec, StampedByOrigin(codec, Permitted(codec, m, h, prm), origin, room), ids);
            && PayloadBytes(out) == PayloadBytes(m) && out.binary == (m.binary || ids != [])
            && Parse(codec, out).Some?
            && (ParseEnvelope(codec, out).Some? <==> Enveloped(h) && PayloadBytes(m) == [])
            && (var h' := Parse(codec, out).value;
                && SameBut(h, h', {"p", "_path", "_gid", "_aid"})
                && "p" in h' && h'["p"] == prm
                && RoomFields(h, h', room)
                && PathIds(h') == PathIds(h) + [origin] + ids)
  {
    var h1 := h[PERMISSION := prm];
    var h2 := StampOrigin(h1, origin, room);
    var out := StampedByOrigin(codec, Permitted(codec, m, h, prm), origin, room);
    OriginStamps(codec, m, h, prm, origin, room);
    HopsKeepAllButPath(codec, out, h2, ids);
    var last := Hops(codec, out, ids);
    var h' := Parse(codec, last).value;
    assert SameBut(h2, h', {PATH});
    SameFields(h, h2, h', prm, origin, room);
    PayloadStartsWithNul(last);
    EnvelopeIffFieldAndNoPayload(codec, last, h');
    assert Enveloped(h) <==> Enveloped(h') by { assert S2S !in {PERMISSION, PATH, GID, AID}; }
  }

  lemma SameFields(h: Header, h2: Header, h': Header, prm: Json, origin: string, room: Option<Scope>)
    requires h2 == StampOrigin(h[PERMISSION := prm], origin, room) && SameBut(h2, h', {PATH})
    ensures SameBut(h, h', {PERMISSION, PATH, GID, AID}) && RoomFields(h, h', room)
    ensures PERMISSION in h' && h'[PERMISSION] == prm
  {
    assert PERMISSION !in {PATH} && GID !in {PATH} && AID !in {PATH};
  }
}
