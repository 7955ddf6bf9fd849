/**
 Tenant identifiers and every name derived from one: container, network,
 init container and directory. Docker and the file system know tenants only
 by these strings, so isolation between tenants rests on the names being
 different, which the decoding functions below establish.
 */
module Naming {
  import opened Prelude

  const CONTAINER_PREFIX: string := "octw_tenant_"
  const INIT_PREFIX: string := "octw_init_"
  const TENANT_BASE_DIR: string := "/var/lib/octw/tenants"

  predicate IsHexDigit(c: char) {
    '0' <= c <= '9' || 'a' <= c <= 'f'
  }

  predicate IsHex(s: string) {
    forall i :: 0 <= i < |s| ==> IsHexDigit(s[i])
  }

  predicate IsUuid(s: string) {
    |s| == 32 && IsHex(s)
  }

  /** A UUID is its 128 bits, written as 32 lower-case hex digits. */
  type Uuid = s: string | IsUuid(s) witness seq(32, _ => '0')

  /** The canonical 8-4-4-4-12 text of a UUID. */
  function UuidText(u: Uuid): string {
    u[..8] + "-" + u[8..12] + "-" + u[12..16] + "-" + u[16..20] + "-" + u[20..]
  }

  predicate IsUuidText(s: string) {
    && |s| == 36
    && s[8] == '-' && s[13] == '-' && s[18] == '-' && s[23] == '-'
    && IsHex(s[..8] + s[9..13] + s[14..18] + s[19..23] + s[24..])
  }

  function TextUuid(s: string): Option<Uuid> {
    if IsUuidText(s) then Some(s[..8] + s[9..13] + s[14..18] + s[19..23] + s[24..]) else None
  }

  lemma TextRoundTrip(u: Uuid)
    ensures TextUuid(UuidText(u)) == Some(u)
  {
    var s := UuidText(u);
    assert s[..8] == u[..8] && s[9..13] == u[8..12] && s[14..18] == u[12..16];
    assert s[19..23] == u[16..20] && s[24..] == u[20..];
    assert s[..8] + s[9..13] + s[14..18] + s[19..23] + s[24..] == u;
  }

  lemma TextRoundTripBack(s: string)
    requires IsUuidText(s)
    ensures UuidText(TextUuid(s).value) == s
  {
    var u := TextUuid(s).value;
    assert u[..8] == s[..8] && u[8..12] == s[9..13] && u[12..16] == s[14..18];
    assert u[16..20] == s[19..23] && u[20..] == s[24..];
  }

  /** Reads a tenant back out of a prefixed name. */
  function Decode(prefix: string, name: string): Option<Uuid> {
    if |prefix| <= |name| && name[..|prefix|] == prefix then TextUuid(name[|prefix|..]) else None
  }

  lemma DecodeEncoded(prefix: string, u: Uuid)
    ensures Decode(prefix, prefix + UuidText(u)) == Some(u)
  {
    TextRoundTrip(u);
    assert (prefix + UuidText(u))[|prefix|..] == UuidText(u);
  }

  lemma EncodeDecoded(prefix: string, name: string)
    requires Decode(prefix, name).Some?
    ensures prefix + UuidText(Decode(prefix, name).value) == name
  {
    TextRoundTripBack(name[|prefix|..]);
  }

  /** The tenant a container name belongs to, if it is a tenant container's name. */
  function Owner(name: string): (r: Option<Uuid>)
    ensures r.Some? ==> CONTAINER_PREFIX + UuidText(r.value) == name
  {
    var r := Decode(CONTAINER_PREFIX, name);
    assert r.Some? ==> CONTAINER_PREFIX + UuidText(r.value) == name by {
      if r.Some? { EncodeDecoded(CONTAINER_PREFIX, name); }
    }
    r
  }

  /** Distinct tenants have distinct container names: the owner can be read back. */
  function ContainerName(u: Uuid): (name: string)
    ensures Owner(name) == Some(u)
    ensures forall n :: Owner(n) == Some(u) ==> n == name
  {
    DecodeEncoded(CONTAINER_PREFIX, u);
    CONTAINER_PREFIX + UuidText(u)
  }

  /** Networks live in a namespace of their own, under the same text. */
  function NetworkName(u: Uuid): (name: string)
    ensures Owner(name) == Some(u)
  {
    ContainerName(u)
  }

  /** Init containers share the containers' namespace and never collide with it. */
  function InitName(u: Uuid): (name: string)
    ensures Owner(name) == None
    ensures Decode(INIT_PREFIX, name) == Some(u)
  {
    DecodeEncoded(INIT_PREFIX, u);
    var name := INIT_PREFIX + UuidText(u);
    assert name[5] == 'i' && CONTAINER_PREFIX[5] == 't';
    name
  }

  function TenantDir(u: Uuid): (path: string)
    ensures Decode(TENANT_BASE_DIR + "/", path) == Some(u)
  {
    DecodeEncoded(TENANT_BASE_DIR + "/", u);
    TENANT_BASE_DIR + "/" + UuidText(u)
  }
}
