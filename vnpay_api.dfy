/** The VNPAY redirect: the request's fixed fields are filled in, the
    amount scaled to the gateway's unit, the fields serialised as a query
    with keys in ascending order and signed, and the pay URL assembled
    from the fields, the signature type and the signature. The keyed
    hash (HMAC-SHA512 over UTF-8 bytes) and the percent-encoding of the
    form serialiser are parameters: the model does not interpret them. */
module VnPayApi {
  import opened Seqs
  import opened Text

  const BaseUrl: string := "https://sandbox.vnpayment.vn/paymentv2/vpcpay.html"
  const SecureHashKey: string := "vnp_SecureHash"
  const SecureHashTypeKey: string := "vnp_SecureHashType"
  const HashTypeName: string := "HmacSHA512"

  newtype byte = x: int | 0 <= x < 256

  // ---------------------------------------------------------------------
  // `toHex`: two lower-case hex digits per byte, zero-padded.

  predicate IsLowerHex(c: char) { '0' <= c <= '9' || 'a' <= c <= 'f' }

  function HexDigit(d: int): (c: char)
    requires 0 <= d < 16
    ensures IsLowerHex(c)
  {
    if d < 10 then ('0' as int + d) as char else ('a' as int + d - 10) as char
  }

  function HexValue(c: char): (d: int)
    requires IsLowerHex(c)
    ensures 0 <= d < 16
  {
    if c <= '9' then c as int - '0' as int else c as int - 'a' as int + 10
  }

  /** `b.toString(16).padStart(2, "0")`. */
  function ByteHex(b: byte): (r: string)
    ensures |r| == 2 && IsLowerHex(r[0]) && IsLowerHex(r[1])
    ensures HexValue(r[0]) * 16 + HexValue(r[1]) == b as int
  {
    [HexDigit(b as int / 16), HexDigit(b as int % 16)]
  }

  function ToHex(bytes: seq<byte>): (r: string)
    ensures |r| == 2 * |bytes|
    ensures forall i :: 0 <= i < |r| ==> IsLowerHex(r[i])
  {
    if bytes == [] then [] else ByteHex(bytes[0]) + ToHex(bytes[1..])
  }

  /** Reads pairs of hex digits back into bytes. */
  function FromHex(s: string): seq<byte>
    requires |s| % 2 == 0 && forall i :: 0 <= i < |s| ==> IsLowerHex(s[i])
  {
    if s == [] then [] else [(HexValue(s[0]) * 16 + HexValue(s[1])) as byte] + FromHex(s[2..])
  }

  /** The hex text of a byte string reads back as that byte string. */
  lemma {:induction false} FromHexToHex(bytes: seq<byte>)
    ensures FromHex(ToHex(bytes)) == bytes
  {
    if bytes != [] {
      FromHexToHex(bytes[1..]);
      var s := ToHex(bytes);
      assert s[..2] == ByteHex(bytes[0]) && s[2..] == ToHex(bytes[1..]);
    }
  }

  // ---------------------------------------------------------------------
  // Records of string or number fields.

  datatype Value = Str(text: string) | Num(n: int)

  /** `String(v)`. */
  function ValueString(v: Value): string
  {
    match v
    case Str(text) => text
    case Num(n) => IntToString(n)
  }

  /** The keys of a record's entries, in order. */
  function Keys(entries: seq<(string, Value)>): (ks: seq<string>)
    ensures |ks| == |entries| && forall i :: 0 <= i < |entries| ==> ks[i] == entries[i].0
  {
    if entries == [] then [] else [entries[0].0] + Keys(entries[1..])
  }

  /** `data[k]`: the value of the first entry with the key, if any. */
  function Lookup(entries: seq<(string, Value)>, k: string): (v: Option<Value>)
    ensures v.Some? <==> k in Keys(entries)
    ensures v.Some? ==> (k, v.value) in entries
  {
    if entries == [] then None
    else if entries[0].0 == k then Some(entries[0].1)
    else Lookup(entries[1..], k)
  }

  /** `String(data[k])`: the text of the key's value, and the text of
      `undefined` for a missing key. */
  function FieldText(entries: seq<(string, Value)>, k: string): string
  {
    match Lookup(entries, k)
    case Some(v) => ValueString(v)
    case None => "undefined"
  }

  /** In a record every key has one entry, so `data[k]` is that entry's value. */
  lemma {:induction false} LookupEntry(entries: seq<(string, Value)>, i: nat)
    requires NoDuplicates(Keys(entries)) && i < |entries|
    ensures Lookup(entries, entries[i].0) == Some(entries[i].1)
  {
    if i > 0 {
      assert Keys(entries)[0] != Keys(entries)[i];
      assert Keys(entries[1..]) == Keys(entries)[1..];
      LookupEntry(entries[1..], i - 1);
    }
  }

  // ---------------------------------------------------------------------
  // `Object.keys(data).sort()`.

  predicate SortedKeys(s: seq<string>)
  {
    forall i, j :: 0 <= i < j < |s| ==> StrLe(s[i], s[j])
  }

  function InsertKey(x: string, s: seq<string>): (r: seq<string>)
    ensures multiset(r) == multiset(s) + multiset{x}
  {
    if s == [] || StrLe(x, s[0]) then [x] + s
    else
      assert s == [s[0]] + s[1..];
      [s[0]] + InsertKey(x, s[1..])
  }

  lemma {:induction false} InsertKeySorted(x: string, s: seq<string>)
    requires SortedKeys(s)
    ensures SortedKeys(InsertKey(x, s))
  {
    if s == [] || StrLe(x, s[0]) {
      if s != [] {
        StrLeTotal(s[0], s[0]);
        forall j | 0 < j < |[x] + s| ensures StrLe(x, ([x] + s)[j]) {
          StrLeTransitive(x, s[0], s[j - 1]);
        }
      }
    } else {
      StrLeTotal(x, s[0]);
      InsertKeySorted(x, s[1..]);
      var rest := InsertKey(x, s[1..]);
      forall y | y in rest ensures StrLe(s[0], y) {
        assert y in multiset(rest);
        assert y == x || y in s[1..];
      }
      assert InsertKey(x, s) == [s[0]] + rest;
    }
  }

  /** The keys in ascending order. */
  function SortKeys(s: seq<string>): (r: seq<string>)
    ensures multiset(r) == multiset(s)
  {
    if s == [] then []
    else
      assert s == [s[0]] + s[1..];
      InsertKey(s[0], SortKeys(s[1..]))
  }

  /** `sort()` puts the keys in ascending order. */
  lemma {:induction false} SortKeysSorted(s: seq<string>)
    ensures SortedKeys(SortKeys(s))
  {
    if s != [] {
      SortKeysSorted(s[1..]);
      InsertKeySorted(s[0], SortKeys(s[1..]));
    }
  }

  /** Each of `keys` paired with the text of its value in the record. */
  function PairsFor(data: seq<(string, Value)>, keys: seq<string>): (pairs: seq<(string, string)>)
    ensures |pairs| == |keys|
    ensures forall i :: 0 <= i < |keys| ==> pairs[i] == (keys[i], FieldText(data, keys[i]))
  {
    if keys == [] then [] else [(keys[0], FieldText(data, keys[0]))] + PairsFor(data, keys[1..])
  }

  /** The key/value pairs `buildSortedQuery` appends, in order. */
  function SortedPairs(data: seq<(string, Value)>): (pairs: seq<(string, string)>)
    ensures |pairs| == |data|
    ensures forall i, j :: 0 <= i < j < |pairs| ==> StrLe(pairs[i].0, pairs[j].0)
    ensures forall i :: 0 <= i < |pairs| ==> pairs[i].1 == FieldText(data, pairs[i].0)
  {
    var keys := SortKeys(Keys(data));
    assert |keys| == |multiset(keys)| == |Keys(data)|;
    SortKeysSorted(Keys(data));
    PairsFor(data, keys)
  }

  /** Every key of a record is emitted exactly once, in strictly ascending
      order, paired with the text of its value. */
  lemma SortedPairsSpec(data: seq<(string, Value)>)
    requires NoDuplicates(Keys(data))
    ensures |SortedPairs(data)| == |data|
    ensures forall i, j :: 0 <= i < j < |SortedPairs(data)| ==>
      StrLe(SortedPairs(data)[i].0, SortedPairs(data)[j].0) && SortedPairs(data)[i].0 != SortedPairs(data)[j].0
    ensures forall e :: e in data ==> (e.0, ValueString(e.1)) in SortedPairs(data)
    ensures forall p :: p in SortedPairs(data) ==> exists e :: e in data && p == (e.0, ValueString(e.1))
  {
    SortedPairsOrdered(data);
    forall e | e in data ensures (e.0, ValueString(e.1)) in SortedPairs(data) {
      var i :| 0 <= i < |data| && data[i] == e;
      SortedPairsHas(data, i);
    }
    SortedPairsFrom(data);
  }

  /** The pairs follow the sorted keys, one per field. */
  lemma SortedPairsOrdered(data: seq<(string, Value)>)
    requires NoDuplicates(Keys(data))
    ensures |SortedPairs(data)| == |data|
    ensures forall i, j :: 0 <= i < j < |SortedPairs(data)| ==>
      StrLe(SortedPairs(data)[i].0, SortedPairs(data)[j].0) && SortedPairs(data)[i].0 != SortedPairs(data)[j].0
  {
    var keys := SortKeys(Keys(data));
    var pairs := SortedPairs(data);
    assert |keys| == |multiset(keys)| == |Keys(data)|;
    assert forall i :: 0 <= i < |pairs| ==> pairs[i].0 == keys[i];
    SortKeysSorted(Keys(data));
    NoDuplicatesPermutation(keys, Keys(data));
  }

  /** Every emitted pair comes from a field of the record. */
  lemma SortedPairsFrom(data: seq<(string, Value)>)
    ensures forall p :: p in SortedPairs(data) ==> exists e :: e in data && p == (e.0, ValueString(e.1))
  {
    var keys := SortKeys(Keys(data));
    var pairs := SortedPairs(data);
    forall p | p in pairs ensures exists e :: e in data && p == (e.0, ValueString(e.1)) {
      var i :| 0 <= i < |pairs| && pairs[i] == p;
      SortKeysMembers(Keys(data));
      assert keys[i] in Keys(data);
      assert (keys[i], Lookup(data, keys[i]).value) in data;
    }
  }

  /** The entry at position `i` is among the emitted pairs. */
  lemma SortedPairsHas(data: seq<(string, Value)>, i: nat)
    requires NoDuplicates(Keys(data)) && i < |data|
    ensures (data[i].0, ValueString(data[i].1)) in SortedPairs(data)
  {
    KeyOfEntry(data, i);
    SortKeysHas(Keys(data), data[i].0);
    PairsForEntry(data, SortKeys(Keys(data)), i);
  }

  /** Pairing a list of keys that holds an entry's key emits that entry. */
  lemma PairsForEntry(data: seq<(string, Value)>, keys: seq<string>, i: nat)
    requires NoDuplicates(Keys(data)) && i < |data|
    requires data[i].0 in keys
    ensures (data[i].0, ValueString(data[i].1)) in PairsFor(data, keys)
  {
    LookupEntry(data, i);
    PairsForHas(data, keys, data[i].0);
  }

  lemma KeyOfEntry(data: seq<(string, Value)>, i: nat)
    requires i < |data|
    ensures data[i].0 in Keys(data)
  {
    assert Keys(data)[i] == data[i].0;
  }

  lemma SortKeysHas(s: seq<string>, k: string)
    requires k in s
    ensures k in SortKeys(s)
  {
    assert k in multiset(s);
  }

  /** Sorting neither adds nor loses a key. */
  lemma SortKeysMembers(s: seq<string>)
    ensures forall k :: k in SortKeys(s) <==> k in s
  {
    var r := SortKeys(s);
    forall k ensures k in r <==> k in s {
      assert k in r <==> k in multiset(r);
      assert k in s <==> k in multiset(s);
    }
  }

  lemma PairsForHas(data: seq<(string, Value)>, keys: seq<string>, k: string)
    requires k in keys
    ensures (k, FieldText(data, k)) in PairsFor(data, keys)
  {
    var j :| 0 <= j < |keys| && keys[j] == k;
    assert PairsFor(data, keys)[j] == (k, FieldText(data, k));
  }

  // ---------------------------------------------------------------------
  // `URLSearchParams.toString()`.

  function PairStrings(pairs: seq<(string, string)>, encode: string -> string): (r: seq<string>)
    ensures |r| == |pairs|
    ensures forall i :: 0 <= i < |pairs| ==> r[i] == encode(pairs[i].0) + "=" + encode(pairs[i].1)
  {
    if pairs == [] then [] else [encode(pairs[0].0) + "=" + encode(pairs[0].1)] + PairStrings(pairs[1..], encode)
  }

  /** `name=value` pieces joined by '&'. */
  function Serialize(pairs: seq<(string, string)>, encode: string -> string): (r: string)
    ensures pairs != [] ==> encode(pairs[0].0) + "=" + encode(pairs[0].1) <= r
    ensures pairs != [] && (forall x :: '&' !in encode(x)) ==> multiset(r)['&'] == |pairs| - 1
  {
    if pairs == [] then ""
    else
      PiecesJoinCount(pairs, encode);
      Join(PairStrings(pairs, encode), '&')
  }

  /** The joined pieces start with the first piece and, when no piece holds
      '&', hold one '&' between each two pieces. */
  lemma PiecesJoinCount(pairs: seq<(string, string)>, encode: string -> string)
    requires pairs != []
    ensures PairStrings(pairs, encode)[0] <= Join(PairStrings(pairs, encode), '&')
    ensures (forall x :: '&' !in encode(x)) ==>
      multiset(Join(PairStrings(pairs, encode), '&'))['&'] == |pairs| - 1
  {
    var parts := PairStrings(pairs, encode);
    JoinStartsWithFirst(parts, '&');
    if forall x :: '&' !in encode(x) {
      forall p | p in parts ensures '&' !in p {
        var i :| 0 <= i < |parts| && parts[i] == p;
        assert p == encode(pairs[i].0) + "=" + encode(pairs[i].1);
      }
      JoinCount(parts, '&');
    }
  }

  /** With an encoder that escapes '&', the query splits back into its
      `name=value` pieces, one per pair, in order. */
  lemma SerializeSplits(pairs: seq<(string, string)>, encode: string -> string)
    requires pairs != []
    requires forall x :: '&' !in encode(x)
    ensures Split(Serialize(pairs, encode), '&') == PairStrings(pairs, encode)
  {
    var parts := PairStrings(pairs, encode);
    forall p | p in parts ensures '&' !in p {
      var i :| 0 <= i < |parts| && parts[i] == p;
      assert p == encode(pairs[i].0) + "=" + encode(pairs[i].1);
    }
    SplitJoin(parts, '&');
  }

  /** `buildSortedQuery`: one append per key, in ascending key order. */
  method BuildSortedQuery(data: seq<(string, Value)>, encode: string -> string) returns (query: string)
    ensures query == Serialize(SortedPairs(data), encode)
  {
    var keys := SortKeys(Keys(data));
    var sp: seq<(string, string)> := [];
    var i := 0;
    while i < |keys|
      invariant 0 <= i <= |keys|
      invariant sp == PairsFor(data, keys[..i])
    {
      PairsForSnoc(data, keys, i);
      sp := sp + [(keys[i], FieldText(data, keys[i]))];
      i := i + 1;
    }
    assert keys[..i] == keys;
    query := Serialize(sp, encode);
  }

  /** Pairing one more key appends its pair. */
  lemma PairsForSnoc(data: seq<(string, Value)>, keys: seq<string>, i: nat)
    requires i < |keys|
    ensures PairsFor(data, keys[..i + 1]) == PairsFor(data, keys[..i]) + [(keys[i], FieldText(data, keys[i]))]
  {
    var a := PairsFor(data, keys[..i + 1]);
    var b := PairsFor(data, keys[..i]) + [(keys[i], FieldText(data, keys[i]))];
    assert |a| == |b|;
    forall j | 0 <= j < |a| ensures a[j] == b[j] {
      assert keys[..i + 1][j] == keys[j];
    }
  }

  // ---------------------------------------------------------------------
  // The hash fields and the final parameters.

  predicate IsHashKey(k: string) { k == SecureHashKey || k == SecureHashTypeKey }

  /** The record without its hash fields. */
  function WithoutHashFields(entries: seq<(string, Value)>): (r: seq<(string, Value)>)
    ensures forall e :: e in r <==> e in entries && !IsHashKey(e.0)
    ensures forall k :: k in Keys(r) ==> k in Keys(entries) && !IsHashKey(k)
    ensures NoDuplicates(Keys(entries)) ==> NoDuplicates(Keys(r))
  {
    if entries == [] then []
    else
      var rest := WithoutHashFields(entries[1..]);
      assert Keys(entries[1..]) == Keys(entries)[1..];
      assert forall e :: e in entries <==> e == entries[0] || e in entries[1..];
      if IsHashKey(entries[0].0) then rest
      else
        assert Keys([entries[0]] + rest) == [entries[0].0] + Keys(rest);
        [entries[0]] + rest
  }

  /** `Object.entries(baseParams).map(([k, v]) => [k, String(v)])`. */
  function AsStrings(entries: seq<(string, Value)>): (r: seq<(string, string)>)
    ensures |r| == |entries|
    ensures forall i :: 0 <= i < |entries| ==> r[i] == (entries[i].0, ValueString(entries[i].1))
  {
    if entries == [] then [] else [(entries[0].0, ValueString(entries[0].1))] + AsStrings(entries[1..])
  }

  function Names(params: seq<(string, string)>): (ns: seq<string>)
    ensures |ns| == |params| && forall i :: 0 <= i < |params| ==> ns[i] == params[i].0
  {
    if params == [] then [] else [params[0].0] + Names(params[1..])
  }

  /** The value an object built from the pairs holds under `k`. */
  function Get(params: seq<(string, string)>, k: string): Option<string>
  {
    if params == [] then None else if params[0].0 == k then Some(params[0].1) else Get(params[1..], k)
  }

  /** A property written after a spread: it replaces the value of a key
      already present, in its place, or is added at the end. */
  function Put(params: seq<(string, string)>, k: string, v: string): (r: seq<(string, string)>)
    ensures Get(r, k) == Some(v)
    ensures forall j :: j != k ==> Get(r, j) == Get(params, j)
    ensures k !in Names(params) ==> r == params + [(k, v)]
    ensures k in Names(params) ==> Names(r) == Names(params)
  {
    if params == [] then [(k, v)]
    else if params[0].0 == k then [(k, v)] + params[1..]
    else
      var rest := Put(params[1..], k, v);
      assert Names(params) == [params[0].0] + Names(params[1..]);
      assert Names([params[0]] + rest) == [params[0].0] + Names(rest);
      [params[0]] + rest
  }

  /** The parameters of the pay URL: the record's fields as text, then the
      signature type and the signature. */
  function FinalParams(base: seq<(string, Value)>, hash: string): (r: seq<(string, string)>)
    ensures Get(r, SecureHashKey) == Some(hash)
    ensures Get(r, SecureHashTypeKey) == Some(HashTypeName)
    ensures forall k :: !IsHashKey(k) ==> Get(r, k) == Get(AsStrings(base), k)
  {
    Put(Put(AsStrings(base), SecureHashTypeKey, HashTypeName), SecureHashKey, hash)
  }

  /** Without hash fields in the record, the pay URL lists its fields in
      order followed by `vnp_SecureHashType=HmacSHA512` and the signature. */
  lemma FinalParamsOrder(base: seq<(string, Value)>, hash: string)
    requires forall k :: k in Keys(base) ==> !IsHashKey(k)
    ensures FinalParams(base, hash) == AsStrings(base) + [(SecureHashTypeKey, HashTypeName), (SecureHashKey, hash)]
  {
    var s := AsStrings(base);
    forall i | 0 <= i < |s| ensures !IsHashKey(Names(s)[i]) {
      assert Names(s)[i] == Keys(base)[i] && Keys(base)[i] in Keys(base);
    }
    var t := Put(s, SecureHashTypeKey, HashTypeName);
    assert Names(t) == Names(s) + [SecureHashTypeKey];
    assert SecureHashKey !in Names(t);
  }

  /** A record that already holds `vnp_SecureHash` but no signature type
      keeps its field order: the new signature replaces the old value in
      place and the signature type comes last. */
  lemma FinalParamsReplaceHash(base: seq<(string, Value)>, hash: string)
    requires SecureHashKey in Keys(base) && SecureHashTypeKey !in Keys(base)
    ensures Names(FinalParams(base, hash)) == Keys(base) + [SecureHashTypeKey]
    ensures Get(FinalParams(base, hash), SecureHashKey) == Some(hash)
    ensures Get(FinalParams(base, hash), SecureHashTypeKey) == Some(HashTypeName)
  {
    var s := AsStrings(base);
    assert Names(s) == Keys(base);
    var t := Put(s, SecureHashTypeKey, HashTypeName);
    assert Names(t) == Names(s) + [SecureHashTypeKey];
  }

  // ---------------------------------------------------------------------
  // The creation date.

  predicate IsSeparator(c: char) { c == '-' || c == ':' || c == 'T' }

  predicate IsKept(c: char) { !IsSeparator(c) }

  /** `replace(/[-:T]/g, '')`. */
  function DropSeparators(s: string): (r: string)
    ensures forall c :: c in r <==> c in s && !IsSeparator(c)
  {
    Filter(s, IsKept)
  }

  lemma DropSeparatorsAppend(a: string, b: string)
    ensures DropSeparators(a + b) == DropSeparators(a) + DropSeparators(b)
  {
    FilterAppend(a, b, IsKept);
  }

  /** The `vnp_CreateDate` value: the clock's ISO text without '-', ':' and
      'T', cut to 14 characters. */
  function CompactTimestamp(iso: string): (r: string)
    ensures |r| == Min(14, |DropSeparators(iso)|)
    ensures forall c :: c in r ==> c in iso && !IsSeparator(c)
  {
    Take(DropSeparators(iso), 14)
  }

  predicate AllDigits(s: string) { forall i :: 0 <= i < |s| ==> IsDigit(s[i]) }

  /** The text `Date.toISOString` produces: `YYYY-MM-DDTHH:mm:ss.sssZ`. */
  function IsoTimestamp(y: string, mo: string, d: string, h: string, mi: string, sec: string, ms: string): string
  {
    y + ("-" + (mo + ("-" + (d + ("T" + (h + (":" + (mi + (":" + (sec + ("." + ms + "Z")))))))))))
  }

  lemma DropSeparatorsDigitsPrefix(digits: string, rest: string)
    requires AllDigits(digits)
    ensures DropSeparators(digits + rest) == digits + DropSeparators(rest)
  {
    DropSeparatorsAppend(digits, rest);
    assert forall c :: c in digits ==> IsKept(c);
  }

  lemma DropSeparatorsSkip(c: char, rest: string)
    requires IsSeparator(c)
    ensures DropSeparators([c] + rest) == DropSeparators(rest)
  {
    DropSeparatorsAppend([c], rest);
    assert DropSeparators([c]) == [];
  }

  /** Removing the separators from an ISO timestamp keeps its digit fields
      in order and then whatever the fraction part leaves. */
  lemma DropIsoSeparators(y: string, mo: string, d: string, h: string, mi: string, sec: string, ms: string)
    requires AllDigits(y) && AllDigits(mo) && AllDigits(d) && AllDigits(h) && AllDigits(mi) && AllDigits(sec)
    ensures DropSeparators(IsoTimestamp(y, mo, d, h, mi, sec, ms))
      == y + (mo + (d + (h + (mi + (sec + DropSeparators("." + ms + "Z"))))))
  {
    var t0 := "." + ms + "Z";
    var t1 := sec + t0;
    var t2 := ":" + t1;
    var t3 := mi + t2;
    var t4 := ":" + t3;
    var t5 := h + t4;
    var t6 := "T" + t5;
    var t7 := d + t6;
    var t8 := "-" + t7;
    var t9 := mo + t8;
    var t10 := "-" + t9;
    assert IsoTimestamp(y, mo, d, h, mi, sec, ms) == y + t10;
    DropSeparatorsDigitsPrefix(sec, t0);
    DropSeparatorsSkip(':', t1);
    DropSeparatorsDigitsPrefix(mi, t2);
    DropSeparatorsSkip(':', t3);
    DropSeparatorsDigitsPrefix(h, t4);
    DropSeparatorsSkip('T', t5);
    DropSeparatorsDigitsPrefix(d, t6);
    DropSeparatorsSkip('-', t7);
    DropSeparatorsDigitsPrefix(mo, t8);
    DropSeparatorsSkip('-', t9);
    DropSeparatorsDigitsPrefix(y, t10);
  }

  lemma ConcatSix(a: string, b: string, c: string, d: string, e: string, f: string, r: string)
    ensures a + (b + (c + (d + (e + (f + r))))) == a + b + c + d + e + f + r
  {
  }

  /** For a timestamp in ISO form the creation date is `yyyyMMddHHmmss`. */
  lemma CompactIsoTimestamp(y: string, mo: string, d: string, h: string, mi: string, sec: string, ms: string)
    requires |y| == 4 && |mo| == 2 && |d| == 2 && |h| == 2 && |mi| == 2 && |sec| == 2
    requires AllDigits(y) && AllDigits(mo) && AllDigits(d) && AllDigits(h) && AllDigits(mi) && AllDigits(sec)
    ensures CompactTimestamp(IsoTimestamp(y, mo, d, h, mi, sec, ms)) == y + mo + d + h + mi + sec
  {
    var r := DropSeparators("." + ms + "Z");
    DropIsoSeparators(y, mo, d, h, mi, sec, ms);
    ConcatSix(y, mo, d, h, mi, sec, r);
    var digits := y + mo + d + h + mi + sec;
    assert digits + r == y + mo + d + h + mi + sec + r;
    assert (digits + r)[..14] == digits;
  }

  // ---------------------------------------------------------------------
  // The request and `payUrl`.

  /** The request's field names, in the order the request type declares them. */
  const FieldKeys: seq<string> := [
    "vnp_Version", "vnp_TmnCode", "vnp_Amount", "vnp_Command", "vnp_CreateDate", "vnp_CurrCode",
    "vnp_IpAddr", "vnp_Locale", "vnp_OrderInfo", "vnp_OrderType", "vnp_ReturnUrl", "vnp_TxnRef",
    "vnp_ExpireDate", SecureHashKey]

  /** Pairs each key with the value at the same position. */
  function Zip(keys: seq<string>, values: seq<Value>): (entries: seq<(string, Value)>)
    requires |keys| == |values|
    ensures |entries| == |keys| && forall i :: 0 <= i < |keys| ==> entries[i] == (keys[i], values[i])
  {
    if keys == [] then [] else [(keys[0], values[0])] + Zip(keys[1..], values[1..])
  }

  lemma FieldKeysDistinct()
    ensures NoDuplicates(FieldKeys)
  {
  }

  /** A payment request; `payUrl` overwrites most of its fields in place. */
  class VnPayRequest {
    var version: string
    var tmnCode: string
    var amount: int
    var command: string
    var createDate: string
    var currCode: string
    var ipAddr: string
    var locale: string
    var orderInfo: string
    var orderType: string
    var returnUrl: string
    var txnRef: string
    var expireDate: string
    var secureHash: string

    constructor (txnRef: string, amount: int, orderInfo: string, expireDate: string)
      ensures this.txnRef == txnRef && this.amount == amount
      ensures this.orderInfo == orderInfo && this.expireDate == expireDate
      ensures version == "" && tmnCode == "" && command == "" && createDate == ""
      ensures currCode == "" && ipAddr == "" && locale == "" && orderType == ""
      ensures returnUrl == "" && secureHash == ""
    {
      version, tmnCode, command, createDate := "", "", "", "";
      currCode, ipAddr, locale, orderType := "", "", "", "";
      returnUrl, secureHash := "", "";
      this.txnRef := txnRef;
      this.amount := amount;
      this.orderInfo := orderInfo;
      this.expireDate := expireDate;
    }

    /** `{ ...req }`: the fields in the order the request type declares them. */
    function Entries(): (entries: seq<(string, Value)>)
      reads this
      ensures NoDuplicates(Keys(entries))
      ensures (SecureHashKey, Str(secureHash)) in entries
    {
      var values := [
        Str(version), Str(tmnCode), Num(amount), Str(command), Str(createDate), Str(currCode), Str(ipAddr),
        Str(locale), Str(orderInfo), Str(orderType), Str(returnUrl), Str(txnRef), Str(expireDate), Str(secureHash)];
      var entries := Zip(FieldKeys, values);
      FieldKeysDistinct();
      assert Keys(entries) == FieldKeys;
      assert entries[13] == (SecureHashKey, Str(secureHash));
      entries
    }
  }

  /** The signed pairs as the code forms them: every field of the request,
      the hash field included. */
  function SignedPairsAsWritten(req: VnPayRequest): seq<(string, string)>
    reads req
  {
    SortedPairs(req.Entries())
  }

  /** As written, the request's own `vnp_SecureHash` value is part of the
      signed text. */
  lemma AsWrittenSignsHashField(req: VnPayRequest)
    ensures (SecureHashKey, req.secureHash) in SignedPairsAsWritten(req)
  {
    SortedPairsSpec(req.Entries());
  }

  /** The signed pairs with the hash fields left out, as the gateway
      expects them. */
  function SignedPairs(req: VnPayRequest): seq<(string, string)>
    reads req
  {
    SortedPairs(WithoutHashFields(req.Entries()))
  }

  /** The signed pairs hold every field except the hash fields, each once,
      in ascending key order, and no hash field. */
  lemma SignedPairsExcludeHash(req: VnPayRequest)
    ensures forall p :: p in SignedPairs(req) ==> !IsHashKey(p.0)
    ensures forall e :: e in req.Entries() && !IsHashKey(e.0) ==> (e.0, ValueString(e.1)) in SignedPairs(req)
    ensures forall i, j :: 0 <= i < j < |SignedPairs(req)| ==>
      StrLe(SignedPairs(req)[i].0, SignedPairs(req)[j].0) && SignedPairs(req)[i].0 != SignedPairs(req)[j].0
  {
    var base := WithoutHashFields(req.Entries());
    SortedPairsSpec(base);
  }

  /** The URL for the fields `baseParams`: their sorted query signed with
      `secretKey`, the fields, the signature type and the hex signature. */
  method SignedUrl(baseParams: seq<(string, Value)>, secretKey: string,
                   sign: (string, string) -> seq<byte>, encode: string -> string) returns (url: string)
    ensures url == BaseUrl + "?" + Serialize(
      FinalParams(baseParams, ToHex(sign(secretKey, Serialize(SortedPairs(baseParams), encode)))), encode)
  {
    var toSign := BuildSortedQuery(baseParams, encode);
    var hash := ToHex(sign(secretKey, toSign));
    url := BaseUrl + "?" + Serialize(FinalParams(baseParams, hash), encode);
  }

  /** The fields `payUrl` fills in before signing: the fixed protocol
      values, the merchant code, the return URL, the amount scaled by 26000
      and then 100, and the creation date. */
  method Configure(req: VnPayRequest, merchantId: string, returnUrl: string, nowIso: string)
    modifies req
    ensures req.version == "2.1.0" && req.command == "pay" && req.tmnCode == merchantId
    ensures req.amount == old(req.amount) * 26000 * 100
    ensures req.returnUrl == returnUrl && req.currCode == "VND" && req.ipAddr == "127.0.0.1"
    ensures req.locale == "vn" && req.orderType == "other" && req.createDate == CompactTimestamp(nowIso)
    ensures req.txnRef == old(req.txnRef) && req.orderInfo == old(req.orderInfo)
    ensures req.expireDate == old(req.expireDate) && req.secureHash == old(req.secureHash)
  {
    req.version := "2.1.0";
    req.command := "pay";
    req.tmnCode := merchantId;
    req.amount := req.amount * 26000 * 100;
    req.returnUrl := returnUrl;
    req.currCode := "VND";
    req.ipAddr := "127.0.0.1";
    req.locale := "vn";
    req.createDate := CompactTimestamp(nowIso);
    req.orderType := "other";
  }

  /** `payUrl` as written: fills in the request's fields, signs the
      sorted query of every field of the request, the incoming
      `vnp_SecureHash` included, and returns the base URL with the fields,
      the signature type and the signature as its query. The merchant
      code, return URL and secret come from the environment; the clock
      reading is `nowIso`; `sign` is the keyed hash. */
  method PayUrl(req: VnPayRequest, merchantId: string, returnUrl: string, secretKey: string, nowIso: string,
                sign: (string, string) -> seq<byte>, encode: string -> string) returns (url: string)
    modifies req
    ensures req.version == "2.1.0" && req.command == "pay" && req.tmnCode == merchantId
    ensures req.amount == old(req.amount) * 26000 * 100
    ensures req.returnUrl == returnUrl && req.currCode == "VND" && req.ipAddr == "127.0.0.1"
    ensures req.locale == "vn" && req.orderType == "other" && req.createDate == CompactTimestamp(nowIso)
    ensures req.txnRef == old(req.txnRef) && req.orderInfo == old(req.orderInfo)
    ensures req.expireDate == old(req.expireDate) && req.secureHash == old(req.secureHash)
    ensures url == BaseUrl + "?" + Serialize(
      FinalParams(req.Entries(), ToHex(sign(secretKey, Serialize(SignedPairsAsWritten(req), encode)))), encode)
  {
    Configure(req, merchantId, returnUrl, nowIso);
    url := SignedUrl(req.Entries(), secretKey, sign, encode);
  }

  /** `payUrl` with the hash fields removed before signing, as the comment
      at its head announces: the signed query and the URL's field list
      leave out `vnp_SecureHash` and `vnp_SecureHashType`. */
  method PayUrlStripped(req: VnPayRequest, merchantId: string, returnUrl: string, secretKey: string, nowIso: string,
                        sign: (string, string) -> seq<byte>, encode: string -> string) returns (url: string)
    modifies req
    ensures req.version == "2.1.0" && req.command == "pay" && req.tmnCode == merchantId
    ensures req.amount == old(req.amount) * 26000 * 100
    ensures req.returnUrl == returnUrl && req.currCode == "VND" && req.ipAddr == "127.0.0.1"
    ensures req.locale == "vn" && req.orderType == "other" && req.createDate == CompactTimestamp(nowIso)
    ensures req.txnRef == old(req.txnRef) && req.orderInfo == old(req.orderInfo)
    ensures req.expireDate == old(req.expireDate) && req.secureHash == old(req.secureHash)
    ensures url == BaseUrl + "?" + Serialize(
      AsStrings(WithoutHashFields(req.Entries()))
        + [(SecureHashTypeKey, HashTypeName),
           (SecureHashKey, ToHex(sign(secretKey, Serialize(SignedPairs(req), encode))))], encode)
  {
    Configure(req, merchantId, returnUrl, nowIso);
    var base := WithoutHashFields(req.Entries());
    url := SignedUrl(base, secretKey, sign, encode);
    FinalParamsOrder(base, ToHex(sign(secretKey, Serialize(SortedPairs(base), encode))));
  }
}
