/** The length-prefixed byte identities that key the result and plan caches. */
module CacheIdentity {
  import opened Wrappers

  type Byte = b: int | 0 <= b < 256
  type Bytes = seq<Byte>

  const U64: int := 0x1_0000_0000_0000_0000
  const TAG: Bytes := [118, 103, 105, 45, 112, 117, 115, 104, 100, 111, 119, 110, 45, 99, 97, 99, 104, 101, 45, 118, 50]

  // ---------------------------------------------------------------------
  // Little-endian numbers

  function Pow256(k: nat): (p: int)
    ensures p >= 1
  {
    if k == 0 then 1 else 256 * Pow256(k - 1)
  }

  function LittleEndian(n: nat, k: nat): (r: Bytes)
    ensures |r| == k
  {
    if k == 0 then [] else [n % 256] + LittleEndian(n / 256, k - 1)
  }

  function FromLittleEndian(bytes: Bytes): nat {
    if bytes == [] then 0 else bytes[0] + 256 * FromLittleEndian(bytes[1..])
  }

  lemma {:induction false} NumberRoundTrip(n: nat, k: nat)
    requires n < Pow256(k)
    ensures FromLittleEndian(LittleEndian(n, k)) == n
  {
    if k > 0 {
      NumberRoundTrip(n / 256, k - 1);
      assert LittleEndian(n, k)[1..] == LittleEndian(n / 256, k - 1);
    }
  }

  lemma Pow256Of8()
    ensures Pow256(8) == U64
  {
  }

  // ---------------------------------------------------------------------
  // Lists of byte strings

  /** A part fits the 64-bit length field. */
  ghost predicate Measurable(parts: seq<Bytes>) {
    forall i :: 0 <= i < |parts| ==> |parts[i]| < U64
  }

  function EncodeParts(parts: seq<Bytes>): Bytes {
    if parts == [] then [] else LittleEndian(|parts[0]|, 8) + parts[0] + EncodeParts(parts[1..])
  }

  function DecodeParts(bytes: Bytes): Option<seq<Bytes>>
    decreases |bytes|
  {
    if bytes == [] then Some([])
    else if |bytes| < 8 then None
    else
      var length := FromLittleEndian(bytes[..8]);
      if |bytes| < 8 + length then None
      else
        var rest := DecodeParts(bytes[8 + length..]);
        if rest.None? then None else Some([bytes[8..8 + length]] + rest.value)
  }

  lemma {:induction false} PartsRoundTrip(parts: seq<Bytes>)
    requires Measurable(parts)
    ensures DecodeParts(EncodeParts(parts)) == Some(parts)
  {
    if parts != [] {
      var head, tail := parts[0], parts[1..];
      var bytes := EncodeParts(parts);
      Pow256Of8();
      NumberRoundTrip(|head|, 8);
      assert bytes[..8] == LittleEndian(|head|, 8);
      assert bytes[8..8 + |head|] == head;
      assert bytes[8 + |head|..] == EncodeParts(tail);
      PartsRoundTrip(tail);
      assert parts == [head] + tail;
    }
  }

  lemma {:induction false} EncodeConcat(a: seq<Bytes>, b: seq<Bytes>)
    ensures EncodeParts(a + b) == EncodeParts(a) + EncodeParts(b)
  {
    if a == [] {
      assert a + b == b;
    } else {
      assert (a + b)[1..] == a[1..] + b;
      EncodeConcat(a[1..], b);
    }
  }

  lemma {:induction false} EncodeOne(part: Bytes)
    ensures EncodeParts([part]) == LittleEndian(|part|, 8) + part
  {
  }

  method AppendIdentityPart(identity: Bytes, part: Bytes) returns (r: Bytes)
    ensures r == identity + EncodeParts([part])
  {
    EncodeOne(part);
    r := identity + LittleEndian(|part|, 8);
    r := r + part;
  }

  // ---------------------------------------------------------------------
  // Pushdown identity

  /** The key of a pushdown: its blob alone, or a tagged list once side batches exist. */
  function PushdownIdentity(blob: Bytes, joinKeys: seq<Bytes>): Bytes {
    if joinKeys == [] then blob else TAG + EncodeParts([blob] + joinKeys)
  }

  method CacheIdentity(blob: Option<Bytes>, joinKeys: seq<Bytes>) returns (r: Option<Bytes>)
    ensures r == if blob.None? then None else Some(PushdownIdentity(blob.value, joinKeys))
  {
    if blob.None? {
      return None;
    }
    if joinKeys == [] {
      return blob;
    }
    var identity := AppendIdentityPart(TAG, blob.value);
    for i := 0 to |joinKeys|
      invariant identity == TAG + EncodeParts([blob.value] + joinKeys[..i])
    {
      identity := AppendIdentityPart(identity, joinKeys[i]);
      assert [blob.value] + joinKeys[..i + 1] == [blob.value] + joinKeys[..i] + [joinKeys[i]];
      EncodeConcat([blob.value] + joinKeys[..i], [joinKeys[i]]);
    }
    assert joinKeys[..|joinKeys|] == joinKeys;
    r := Some(identity);
  }

  /** The blob `b1` is itself the tagged encoding of the pushdown (b2, k2). */
  ghost predicate Imitates(b1: Bytes, k1: seq<Bytes>, b2: Bytes, k2: seq<Bytes>) {
    k1 == [] && k2 != [] && b1 == TAG + EncodeParts([b2] + k2)
  }

  // Two pushdowns share a key exactly when they are equal or the bare blob of one
  // imitates the tagged encoding of the other.
  lemma {:induction false} PushdownCollisions(b1: Bytes, k1: seq<Bytes>, b2: Bytes, k2: seq<Bytes>)
    requires Measurable([b1] + k1) && Measurable([b2] + k2)
    ensures PushdownIdentity(b1, k1) == PushdownIdentity(b2, k2) <==>
      (b1 == b2 && k1 == k2) || Imitates(b1, k1, b2, k2) || Imitates(b2, k2, b1, k1)
  {
    if k1 != [] && k2 != [] && PushdownIdentity(b1, k1) == PushdownIdentity(b2, k2) {
      var p1, p2 := [b1] + k1, [b2] + k2;
      assert EncodeParts(p1) == PushdownIdentity(b1, k1)[|TAG|..];
      assert EncodeParts(p2) == PushdownIdentity(b2, k2)[|TAG|..];
      PartsRoundTrip(p1);
      PartsRoundTrip(p2);
      assert b1 == p1[0] && k1 == p1[1..];
      assert b2 == p2[0] && k2 == p2[1..];
    }
  }

  // An Arrow IPC stream never starts with the tag, so keys are unique.
  lemma {:induction false} PushdownKeysAreUnique(b1: Bytes, k1: seq<Bytes>, b2: Bytes, k2: seq<Bytes>)
    requires Measurable([b1] + k1) && Measurable([b2] + k2)
    requires !(TAG <= b1) && !(TAG <= b2)
    requires PushdownIdentity(b1, k1) == PushdownIdentity(b2, k2)
    ensures b1 == b2 && k1 == k2
  {
    PushdownCollisions(b1, k1, b2, k2);
  }

  // ---------------------------------------------------------------------
  // Ordering hints

  datatype Direction = Ascending | Descending

  datatype NullOrder = NullsFirst | NullsLast

  /** The wire ordering hint; `limit` is a signed 64-bit number. */
  datatype OrderBy = OrderBy(column: Bytes, direction: Direction, nullOrder: NullOrder, limit: Option<int>)

  predicate Representable(order: OrderBy) {
    |order.column| < U64 && (order.limit.Some? ==> -U64 / 2 <= order.limit.value < U64 / 2)
  }

  function EncodeOrderBy(order: OrderBy): Bytes {
    [1] + EncodeParts([order.column]) + EncodeOptions(order.direction, order.nullOrder) + EncodeLimit(order.limit)
  }

  function EncodeOptions(direction: Direction, nullOrder: NullOrder): (r: Bytes)
    ensures |r| == 2
  {
    [if direction.Ascending? then 0 else 1, if nullOrder.NullsFirst? then 0 else 1]
  }

  function EncodeLimit(limit: Option<int>): Bytes {
    match limit
    case Some(n) => [1] + LittleEndian(n % U64, 8)
    case None => [0]
  }

  function DecodeLimit(bytes: Bytes): Option<int> {
    if |bytes| == 9 && bytes[0] == 1 then
      var n := FromLittleEndian(bytes[1..]);
      Some(if n < U64 / 2 then n else n - U64)
    else None
  }

  function DecodeOrderBy(bytes: Bytes): Option<OrderBy> {
    if |bytes| < 9 then None
    else
      var length := FromLittleEndian(bytes[1..9]);
      if |bytes| < 9 + length + 3 then None
      else Some(OrderBy(
        bytes[9..9 + length],
        if bytes[9 + length] == 0 then Ascending else Descending,
        if bytes[10 + length] == 0 then NullsFirst else NullsLast,
        DecodeLimit(bytes[11 + length..])))
  }

  lemma {:induction false} LimitRoundTrip(limit: Option<int>)
    requires limit.Some? ==> -U64 / 2 <= limit.value < U64 / 2
    ensures DecodeLimit(EncodeLimit(limit)) == limit
  {
    if limit.Some? {
      Pow256Of8();
      NumberRoundTrip(limit.value % U64, 8);
      assert EncodeLimit(limit)[1..] == LittleEndian(limit.value % U64, 8);
    }
  }

  lemma {:induction false} OrderByRoundTrip(order: OrderBy)
    requires Representable(order)
    ensures DecodeOrderBy(EncodeOrderBy(order)) == Some(order)
  {
    var length := |order.column|;
    var prefix, options, tail := LittleEndian(length, 8), EncodeOptions(order.direction, order.nullOrder), EncodeLimit(order.limit);
    EncodeOne(order.column);
    var bytes := [1] + (prefix + order.column) + options + tail;
    assert EncodeOrderBy(order) == bytes;
    assert bytes[1..9] == prefix;
    assert bytes[9..9 + length] == order.column;
    assert bytes[9 + length..11 + length] == options;
    assert bytes[9 + length] == options[0] && bytes[10 + length] == options[1];
    assert bytes[11 + length..] == tail;
    Pow256Of8();
    NumberRoundTrip(length, 8);
    LimitRoundTrip(order.limit);
  }

  lemma {:induction false} OrderByKeysAreUnique(a: OrderBy, b: OrderBy)
    requires Representable(a) && Representable(b)
    ensures EncodeOrderBy(a) == EncodeOrderBy(b) <==> a == b
  {
    OrderByRoundTrip(a);
    OrderByRoundTrip(b);
  }

  // ---------------------------------------------------------------------
  // Session settings

  datatype Setting = Setting(name: Bytes, value: Bytes)

  /** Adapter-only settings count only where the catalog declares the same name. */
  predicate Included(setting: Setting, adapter: set<Bytes>, declared: set<Bytes>) {
    setting.name !in adapter || setting.name in declared
  }

  function IncludedSettings(settings: seq<Setting>, adapter: set<Bytes>, declared: set<Bytes>): seq<Setting> {
    if settings == [] then []
    else
      var last := settings[|settings| - 1];
      IncludedSettings(settings[..|settings| - 1], adapter, declared)
      + if Included(last, adapter, declared) then [last] else []
  }

  function SettingParts(settings: seq<Setting>): (parts: seq<Bytes>)
    ensures |parts| == 2 * |settings|
  {
    if settings == [] then []
    else
      var last := settings[|settings| - 1];
      SettingParts(settings[..|settings| - 1]) + [last.name, last.value]
  }

  lemma SettingAppended(settings: seq<Setting>, setting: Setting)
    ensures EncodeParts(SettingParts(settings + [setting])) ==
            EncodeParts(SettingParts(settings)) + EncodeParts([setting.name]) + EncodeParts([setting.value])
  {
    assert (settings + [setting])[..|settings|] == settings;
    assert [setting.name] + [setting.value] == [setting.name, setting.value];
    EncodeConcat([setting.name], [setting.value]);
    EncodeConcat(SettingParts(settings), [setting.name, setting.value]);
  }

  method SessionSettingsIdentity(settings: seq<Setting>, adapter: set<Bytes>, declared: set<Bytes>) returns (out: Bytes)
    ensures out == EncodeParts(SettingParts(IncludedSettings(settings, adapter, declared)))
  {
    out := [];
    for i := 0 to |settings|
      invariant out == EncodeParts(SettingParts(IncludedSettings(settings[..i], adapter, declared)))
    {
      var setting := settings[i];
      ghost var before := IncludedSettings(settings[..i], adapter, declared);
      assert settings[..i + 1][..i] == settings[..i];
      if Included(setting, adapter, declared) {
        SettingAppended(before, setting);
        assert IncludedSettings(settings[..i + 1], adapter, declared) == before + [setting];
        var withName := AppendIdentityPart(out, setting.name);
        out := AppendIdentityPart(withName, setting.value);
      } else {
        assert IncludedSettings(settings[..i + 1], adapter, declared) == before;
      }
    }
    assert settings[..|settings|] == settings;
  }

  lemma {:induction false} SettingPartsInjective(a: seq<Setting>, b: seq<Setting>)
    requires SettingParts(a) == SettingParts(b)
    ensures a == b
  {
    assert |a| == |b|;
    if a != [] {
      var last := |a| - 1;
      var pa, pb := SettingParts(a), SettingParts(b);
      assert pa[..2 * last] == SettingParts(a[..last]);
      assert pb[..2 * last] == SettingParts(b[..last]);
      assert pa[2 * last] == pb[2 * last] && pa[2 * last + 1] == pb[2 * last + 1];
      SettingPartsInjective(a[..last], b[..last]);
      assert a == a[..last] + [a[last]] && b == b[..last] + [b[last]];
    }
  }

  // Sessions share a settings identity exactly when the settings that can reach
  // the worker are the same.
  lemma {:induction false} SettingsKeysAreUnique(a: seq<Setting>, b: seq<Setting>, adapter: set<Bytes>,
                                                 declaredA: set<Bytes>, declaredB: set<Bytes>)
    requires Measurable(SettingParts(IncludedSettings(a, adapter, declaredA)))
    requires Measurable(SettingParts(IncludedSettings(b, adapter, declaredB)))
    ensures EncodeParts(SettingParts(IncludedSettings(a, adapter, declaredA)))
         == EncodeParts(SettingParts(IncludedSettings(b, adapter, declaredB)))
      <==> IncludedSettings(a, adapter, declaredA) == IncludedSettings(b, adapter, declaredB)
  {
    var sa, sb := IncludedSettings(a, adapter, declaredA), IncludedSettings(b, adapter, declaredB);
    if EncodeParts(SettingParts(sa)) == EncodeParts(SettingParts(sb)) {
      PartsRoundTrip(SettingParts(sa));
      PartsRoundTrip(SettingParts(sb));
      SettingPartsInjective(sa, sb);
    }
  }
}
