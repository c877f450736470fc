/** Identifier validation and tenant namespacing of room names
    (src/validation.rs, src/handlers/message.rs). */
module Identifiers {

  datatype Option<+T> = None | Some(value: T)

  const MAX_IDENTIFIER_LEN := 128

  /** ASCII unit separator between a tenant prefix and a room name in a storage key. */
  const TENANT_SEP: char := '\U{1f}'

  predicate IsIdentifierChar(ch: char) {
    'a' <= ch <= 'z' || 'A' <= ch <= 'Z' || '0' <= ch <= '9' || ch == '_' || ch == '-'
  }

  predicate IsValidIdentifier(s: string) {
    0 < |s| <= MAX_IDENTIFIER_LEN && forall i :: 0 <= i < |s| ==> IsIdentifierChar(s[i])
  }

  /** Printable ASCII other than the punctuation that matters in JSON, keys and paths. */
  lemma IdentifierCharacters(ch: char)
    ensures IsIdentifierChar(ch)
       <==> '!' <= ch <= '~'
            && ch !in {'!', '"', '#', '$', '%', '&', '\'', '(', ')', '*', '+', ',', '.', '/', ':', ';', '<', '=', '>',
                       '?', '@', '[', '\\', ']', '^', '`', '{', '|', '}', '~'}
  {
  }

  /** From one to 128 such characters, nothing else. */
  lemma IdentifierLength(s: string)
    requires forall i :: 0 <= i < |s| ==> IsIdentifierChar(s[i])
    ensures IsValidIdentifier(s) <==> 1 <= |s| <= 128
  {
  }

  function NamespaceRoom(tenant: Option<string>, room: string): string {
    match tenant
    case Some(t) => t + [TENANT_SEP] + room
    case None => room
  }

  /** The part after the FIRST separator, or the whole key when there is none. */
  function RoomDisplay(key: string): string {
    if key == [] then []
    else if key[0] == TENANT_SEP then key[1..]
    else if TENANT_SEP in key then RoomDisplay(key[1..])
    else key
  }

  lemma ValidHasNoSeparator(room: string)
    requires IsValidIdentifier(room)
    ensures TENANT_SEP !in room
  {
  }

  /** Reads a storage key back by cutting at its LAST separator. */
  function ParseKey(key: string): (Option<string>, string) {
    if key == [] then (None, [])
    else
      var n := |key| - 1;
      if key[n] == TENANT_SEP then (Some(key[..n]), [])
      else
        var (tenant, room) := ParseKey(key[..n]);
        (tenant, room + [key[n]])
  }

  lemma {:induction false} ParseInvertsNamespace(tenant: Option<string>, room: string)
    requires TENANT_SEP !in room
    ensures ParseKey(NamespaceRoom(tenant, room)) == (tenant, room)
    decreases |room|
  {
    var key := NamespaceRoom(tenant, room);
    if room == [] {
      if tenant.Some? {
        assert key[..|key| - 1] == tenant.value;
      }
    } else {
      var init := room[..|room| - 1];
      assert key[..|key| - 1] == NamespaceRoom(tenant, init);
      assert room == init + [room[|room| - 1]];
      ParseInvertsNamespace(tenant, init);
    }
  }

  /** Two (tenant, room) pairs share a storage key only when they are the same
      pair.  Only the rooms have to be valid: tenant ids may contain anything. */
  lemma NamespaceInjective(t1: Option<string>, r1: string, t2: Option<string>, r2: string)
    requires IsValidIdentifier(r1) && IsValidIdentifier(r2)
    ensures NamespaceRoom(t1, r1) == NamespaceRoom(t2, r2) <==> t1 == t2 && r1 == r2
  {
    ValidHasNoSeparator(r1);
    ValidHasNoSeparator(r2);
    ParseInvertsNamespace(t1, r1);
    ParseInvertsNamespace(t2, r2);
  }

  /** `split_once` cuts at the FIRST separator, so the display name is the room
      exactly when the tenant id itself is free of the separator. */
  lemma DisplayInvertsNamespace(tenant: Option<string>, room: string)
    requires IsValidIdentifier(room)
    ensures RoomDisplay(NamespaceRoom(tenant, room)) == room
       <==> (tenant.None? || TENANT_SEP !in tenant.value)
  {
    ValidHasNoSeparator(room);
    match tenant
    case None =>
    case Some(t) => DisplayOfJoined(t, room);
  }

  lemma {:induction false} DisplayOfJoined(t: string, room: string)
    requires TENANT_SEP !in room
    ensures TENANT_SEP !in t ==> RoomDisplay(t + [TENANT_SEP] + room) == room
    ensures TENANT_SEP in t ==> |RoomDisplay(t + [TENANT_SEP] + room)| > |room|
  {
    var key := t + [TENANT_SEP] + room;
    assert key[|t|] == TENANT_SEP;
    if t == [] {
      assert key[1..] == room;
    } else if t[0] == TENANT_SEP {
      assert key[1..] == t[1..] + [TENANT_SEP] + room;
    } else {
      assert key[1..] == t[1..] + [TENANT_SEP] + room;
      assert TENANT_SEP in key;
      DisplayOfJoined(t[1..], room);
    }
  }
}
