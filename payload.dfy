/**
 * JSON-RPC 2.0 request payloads (section 4 of the JSON-RPC 2.0 Specification,
 * "Request object") and the projections the wallet pipeline reads from them.
 */
module Payload {
  import opened Values

  // Method names of the Ethereum JSON-RPC catalogue used by the pipeline.
  // The Mask-specific members stand for the corresponding members of the
  // method-type enumeration; the model relies only on all names being distinct.
  const ETH_CALL := "eth_call"
  const ETH_ESTIMATE_GAS := "eth_estimateGas"
  const ETH_SIGN_TRANSACTION := "eth_signTransaction"
  const ETH_SEND_TRANSACTION := "eth_sendTransaction"
  const ETH_SEND_RAW_TRANSACTION := "eth_sendRawTransaction"
  const ETH_GET_TRANSACTION_BY_HASH := "eth_getTransactionByHash"
  const ETH_GET_TRANSACTION_RECEIPT := "eth_getTransactionReceipt"
  const ETH_REQUEST_ACCOUNTS := "eth_requestAccounts"
  const ETH_SIGN_TYPED_DATA := "eth_signTypedData"
  const PERSONAL_SIGN := "personal_sign"
  const MASK_REPLACE_TRANSACTION := "mask_replaceTransaction"
  const MASK_GET_TRANSACTION_RECEIPT := "mask_getTransactionReceipt"
  const MASK_LOGIN_FORTMATIC := "mask_loginFortmatic"
  const MASK_LOGOUT_FORTMATIC := "mask_logoutFortmatic"

  /** A request id is a number or a string. */
  datatype Id = NumId(n: int) | StrId(s: string)

  datatype Payload = Payload(id: Id, jsonrpc: string, rpcMethod: string, params: seq<Value>)

  /** The result of `Number.parseInt`: a number, or NaN when no digit was read. */
  datatype Parsed = NaN | Int(value: int)

  /** Methods whose first parameter is the transaction config. */
  predicate IsConfigMethod(name: string) {
    name == ETH_CALL || name == ETH_ESTIMATE_GAS ||
    name == ETH_SIGN_TRANSACTION || name == ETH_SEND_TRANSACTION
  }

  function CreatePayload(id: int, name: string, params: seq<Value>): (p: Payload)
    ensures p.id == NumId(id) && p.jsonrpc == "2.0"
    ensures p.rpcMethod == name && p.params == params
  {
    Payload(NumId(id), "2.0", name, params)
  }

  // ---------------------------------------------------------------------
  // Number.parseInt over ASCII digits and letters

  /** Value of a digit character in any radix up to 36; 36 for a non-digit. */
  function DigitValue(c: char): (d: nat)
    ensures d <= 36
  {
    if '0' <= c <= '9' then c as int - '0' as int
    else if 'a' <= c <= 'z' then c as int - 'a' as int + 10
    else if 'A' <= c <= 'Z' then c as int - 'A' as int + 10
    else 36
  }

  predicate IsDigit(c: char, radix: nat) {
    DigitValue(c) < radix
  }

  predicate AllDigits(s: string, radix: nat) {
    forall i :: 0 <= i < |s| ==> IsDigit(s[i], radix)
  }

  /** Length of the longest prefix of `s` made of digits of `radix`. */
  function DigitRunLength(s: string, radix: nat): (n: nat)
    ensures n <= |s|
    ensures AllDigits(s[..n], radix)
    ensures n < |s| ==> !IsDigit(s[n], radix)
  {
    if s == [] || !IsDigit(s[0], radix) then 0
    else
      var m := DigitRunLength(s[1..], radix);
      assert s[1..][..m] == s[1..m + 1];
      1 + m
  }

  /** The number a string of digits denotes, most significant digit first. */
  function DigitsValue(s: string, radix: nat): nat
    requires AllDigits(s, radix)
  {
    if s == [] then 0
    else DigitsValue(s[..|s| - 1], radix) * radix + DigitValue(s[|s| - 1])
  }

  predicate IsSpace(c: char) {
    c == ' ' || c == '\t' || c == '\n' || c == '\r' || c == '\U{B}' || c == '\U{C}'
  }

  function TrimStart(s: string): (t: string)
    ensures |t| <= |s| && t == s[|s| - |t|..]
    ensures t != [] ==> !IsSpace(t[0])
  {
    if s != [] && IsSpace(s[0]) then TrimStart(s[1..]) else s
  }

  /**
   * `Number.parseInt(s, radix)`: leading white space and one sign are skipped,
   * radix 16 also skips a `0x`/`0X` prefix, then the longest run of digits is
   * read; NaN when that run is empty.
   */
  function ParseInt(s: string, radix: nat): (r: Parsed)
    requires 2 <= radix <= 36
    ensures TrimStart(s) == [] ==> r == NaN
    ensures r.Int? && r.value < 0 ==> TrimStart(s)[0] == '-'
    ensures radix != 16 && TrimStart(s) != [] && IsDigit(TrimStart(s)[0], radix) ==> r.Int?
  {
    var t := TrimStart(s);
    var negative := |t| > 0 && t[0] == '-';
    var u := if |t| > 0 && (t[0] == '-' || t[0] == '+') then t[1..] else t;
    var w := if radix == 16 && |u| >= 2 && u[0] == '0' && (u[1] == 'x' || u[1] == 'X') then u[2..] else u;
    var n := DigitRunLength(w, radix);
    if n == 0 then NaN
    else
      var v: int := DigitsValue(w[..n], radix);
      Int(if negative then -v else v)
  }

  /** The digit character for `d < radix` (lower-case letters above 9). */
  function DigitChar(d: nat): (c: char)
    requires d < 36
    ensures DigitValue(c) == d
  {
    if d < 10 then ('0' as int + d) as char else ('a' as int + d - 10) as char
  }

  /** The canonical spelling of `n` in `radix`, without a sign or leading zeros. */
  function ToDigits(n: nat, radix: nat): (s: string)
    requires 2 <= radix <= 36
    ensures |s| > 0 && AllDigits(s, radix)
    decreases n
  {
    if n < radix then [DigitChar(n)]
    else
      DivShrinks(n, radix);
      var prefix := ToDigits(n / radix, radix);
      var last := DigitChar(n % radix);
      assert forall i :: 0 <= i < |prefix| ==> (prefix + [last])[i] == prefix[i];
      prefix + [last]
  }

  lemma DivShrinks(n: nat, radix: nat)
    requires 2 <= radix <= n
    ensures n / radix < n && n == n / radix * radix + n % radix
  {
  }

  lemma {:induction false} DigitsValueOfToDigits(n: nat, radix: nat)
    requires 2 <= radix <= 36
    ensures DigitsValue(ToDigits(n, radix), radix) == n
    decreases n
  {
    var s := ToDigits(n, radix);
    if n < radix {
      assert s[..|s| - 1] == [];
    } else {
      var q, d := n / radix, n % radix;
      DivShrinks(n, radix);
      var prefix := ToDigits(q, radix);
      assert s == prefix + [DigitChar(d)];
      assert s[..|s| - 1] == prefix;
      DigitsValueOfToDigits(q, radix);
      calc {
        DigitsValue(s, radix);
        DigitsValue(prefix, radix) * radix + DigitValue(DigitChar(d));
        q * radix + d;
        n;
      }
    }
  }

  lemma {:induction false} DigitRunOfAllDigits(s: string, radix: nat)
    requires AllDigits(s, radix)
    ensures DigitRunLength(s, radix) == |s|
  {
    if s != [] {
      DigitRunOfAllDigits(s[1..], radix);
    }
  }

  /** Parsing the decimal spelling of a natural number gives that number back. */
  lemma ParseIntDecimalRoundTrip(n: nat)
    ensures ParseInt(ToDigits(n, 10), 10) == Int(n)
  {
    var s := ToDigits(n, 10);
    assert !IsSpace(s[0]) && s[0] != '-' && s[0] != '+' by {
      assert IsDigit(s[0], 10);
    }
    DigitRunOfAllDigits(s, 10);
    assert s[..|s|] == s;
    DigitsValueOfToDigits(n, 10);
  }

  /** Parsing `0x` followed by the hexadecimal spelling of `n` gives `n` back. */
  lemma ParseIntHexRoundTrip(n: nat)
    ensures ParseInt("0x" + ToDigits(n, 16), 16) == Int(n)
  {
    var d := ToDigits(n, 16);
    var s := "0x" + d;
    assert s[0] == '0' && s[1] == 'x';
    assert TrimStart(s) == s;
    assert s[2..] == d;
    DigitRunOfAllDigits(d, 16);
    assert d[..|d|] == d;
    DigitsValueOfToDigits(n, 16);
  }

  // ---------------------------------------------------------------------
  // Projections (packages/web3-shared/evm/utils/payload.ts)

  /** `getPayloadId`: a string id is parsed in base 10, a numeric id is kept. */
  function GetPayloadId(p: Payload): (r: Parsed)
    ensures p.id.NumId? ==> r == Int(p.id.n)
    ensures p.id.StrId? ==> r == ParseInt(p.id.s, 10)
  {
    match p.id
    case NumId(n) => Int(n)
    case StrId(s) => ParseInt(s, 10)
  }

  /** `getPayloadConfig`: the transaction config carried by the payload, if its method has one. */
  function GetPayloadConfig(p: Payload): (config: Value)
    ensures IsConfigMethod(p.rpcMethod) ==> config == At(p.params, 0)
    ensures p.rpcMethod == MASK_REPLACE_TRANSACTION ==> config == At(p.params, 1)
    ensures !IsConfigMethod(p.rpcMethod) && p.rpcMethod != MASK_REPLACE_TRANSACTION ==> config == Undefined
  {
    if IsConfigMethod(p.rpcMethod) then At(p.params, 0)
    else if p.rpcMethod == MASK_REPLACE_TRANSACTION then At(p.params, 1)
    else Undefined
  }

  /** `getPayloadFrom`: the `from` field of the payload's config; undefined when there is none. */
  function GetPayloadFrom(p: Payload): (r: Value)
    ensures IsConfigMethod(p.rpcMethod) ==> r == Field(At(p.params, 0), "from")
    ensures p.rpcMethod == MASK_REPLACE_TRANSACTION ==> r == Field(At(p.params, 1), "from")
    ensures r != Undefined ==> IsConfigMethod(p.rpcMethod) || p.rpcMethod == MASK_REPLACE_TRANSACTION
  {
    Field(GetPayloadConfig(p), "from")
  }

  /** `getPayloadTo`: the `to` field of the payload's config; undefined when there is none. */
  function GetPayloadTo(p: Payload): (r: Value)
    ensures IsConfigMethod(p.rpcMethod) ==> r == Field(At(p.params, 0), "to")
    ensures p.rpcMethod == MASK_REPLACE_TRANSACTION ==> r == Field(At(p.params, 1), "to")
    ensures r != Undefined ==> IsConfigMethod(p.rpcMethod) || p.rpcMethod == MASK_REPLACE_TRANSACTION
  {
    Field(GetPayloadConfig(p), "to")
  }

  /** `getPayloadNonce`: the `nonce` field of the payload's config; undefined when there is none. */
  function GetPayloadNonce(p: Payload): (r: Value)
    ensures IsConfigMethod(p.rpcMethod) ==> r == Field(At(p.params, 0), "nonce")
    ensures p.rpcMethod == MASK_REPLACE_TRANSACTION ==> r == Field(At(p.params, 1), "nonce")
    ensures r != Undefined ==> IsConfigMethod(p.rpcMethod) || p.rpcMethod == MASK_REPLACE_TRANSACTION
  {
    Field(GetPayloadConfig(p), "nonce")
  }

  /**
   * `getPayloadChainId`: a string `chainId` in the config is parsed in base 16;
   * NaN and 0 (both falsy) and a chainId that is not a string give undefined.
   */
  function GetPayloadChainId(p: Payload): (r: Option<int>)
    ensures r.Some? ==> r.value != 0
    ensures r.Some? ==> Field(GetPayloadConfig(p), "chainId").Str?
  {
    var c := Field(GetPayloadConfig(p), "chainId");
    if !c.Str? then None
    else match ParseInt(c.s, 16)
      case NaN => None
      case Int(v) => if v == 0 then None else Some(v)
  }

  /** `getPayloadHash`: the replaced hash of a replace-transaction payload, '' for any other method. */
  function GetPayloadHash(p: Payload): (r: Value)
    ensures p.rpcMethod != MASK_REPLACE_TRANSACTION ==> r == Str("")
    ensures p.rpcMethod == MASK_REPLACE_TRANSACTION ==> r == At(p.params, 0)
  {
    if p.rpcMethod == MASK_REPLACE_TRANSACTION then At(p.params, 0) else Str("")
  }

  // ---------------------------------------------------------------------
  // Properties relating the projections

  /** A payload built by `createPayload` reports its id back through `getPayloadId`. */
  lemma CreatedPayloadId(id: int, name: string, params: seq<Value>)
    ensures GetPayloadId(CreatePayload(id, name, params)) == Int(id)
  {
  }

  /** A string id that spells a natural number in decimal is read back as that number. */
  lemma StringIdRoundTrip(n: nat, name: string, params: seq<Value>)
    ensures GetPayloadId(Payload(StrId(ToDigits(n, 10)), "2.0", name, params)) == Int(n)
  {
    ParseIntDecimalRoundTrip(n);
  }

  /** The config of a created send-transaction payload is its first parameter, and `from`, `to`, `nonce` are its fields. */
  lemma SendTransactionConfig(id: int, config: Value, rest: seq<Value>)
    ensures var p := CreatePayload(id, ETH_SEND_TRANSACTION, [config] + rest);
      GetPayloadConfig(p) == config &&
      GetPayloadFrom(p) == Field(config, "from") &&
      GetPayloadTo(p) == Field(config, "to") &&
      GetPayloadNonce(p) == Field(config, "nonce") &&
      GetPayloadHash(p) == Str("")
  {
  }

  /** A replace-transaction payload carries the replaced hash first and the new config second. */
  lemma ReplaceTransactionConfig(id: int, hash: Value, config: Value)
    ensures var p := CreatePayload(id, MASK_REPLACE_TRANSACTION, [hash, config]);
      GetPayloadHash(p) == hash && GetPayloadConfig(p) == config
  {
  }

  /** Without a config (any other method) every config projection is undefined. */
  lemma NoConfigNoFields(p: Payload)
    requires !IsConfigMethod(p.rpcMethod) && p.rpcMethod != MASK_REPLACE_TRANSACTION
    ensures GetPayloadFrom(p) == Undefined && GetPayloadTo(p) == Undefined
    ensures GetPayloadNonce(p) == Undefined && GetPayloadChainId(p) == None
  {
  }

  /** A config chainId written as `0x` plus hexadecimal digits is read back, unless it is zero. */
  lemma ChainIdRoundTrip(p: Payload, n: nat)
    requires Field(GetPayloadConfig(p), "chainId") == Str("0x" + ToDigits(n, 16))
    ensures GetPayloadChainId(p) == if n == 0 then None else Some(n)
  {
    ParseIntHexRoundTrip(n);
  }
}
