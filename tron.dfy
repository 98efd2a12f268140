/**
 * The TRON helper service: the address-format check, the development
 * address generator and the choice of USDT contract by network.
 */
module Tron {
  import opened Wrappers
  import JsString

  /** A request value as JavaScript sees it: absent (`null`/`undefined`), a string, or anything else. */
  datatype JsValue = Absent | Str(s: string) | NonString

  /** The character class `[A-Za-z1-9]` of the address pattern. */
  predicate InAddressClass(c: char) {
    ('A' <= c <= 'Z') || ('a' <= c <= 'z') || ('1' <= c <= '9')
  }

  /** Matches `[A-Za-z1-9]{n}$` against the whole of `s`. */
  predicate MatchesClassRun(s: string, n: nat) {
    if n == 0 then s == [] else s != [] && InAddressClass(s[0]) && MatchesClassRun(s[1..], n - 1)
  }

  /** Matches the anchored pattern `^T[A-Za-z1-9]{33}$`. */
  predicate MatchesAddressPattern(s: string) {
    s != [] && s[0] == 'T' && MatchesClassRun(s[1..], 33)
  }

  /** `isValidAddress`: falsy and non-string values are rejected before the pattern is tried. */
  predicate IsValidAddress(v: JsValue) {
    match v
    case Str(s) => s != "" && MatchesAddressPattern(s)
    case _ => false
  }

  lemma {:induction false} ClassRunIff(s: string, n: nat)
    ensures MatchesClassRun(s, n) <==> |s| == n && forall k :: 0 <= k < |s| ==> InAddressClass(s[k])
    decreases n
  {
    if n > 0 && s != [] {
      ClassRunIff(s[1..], n - 1);
      if InAddressClass(s[0]) && |s[1..]| == n - 1 && (forall k :: 0 <= k < |s[1..]| ==> InAddressClass(s[1..][k])) {
        forall k | 0 <= k < |s| ensures InAddressClass(s[k]) {
          if k > 0 { assert s[k] == s[1..][k - 1]; }
        }
      }
    }
  }

  /** The pattern accepts exactly the 34-character strings `T` + 33 characters of the class. */
  lemma IsValidAddressIff(v: JsValue)
    ensures IsValidAddress(v) <==>
      v.Str? && |v.s| == 34 && v.s[0] == 'T' && forall k :: 1 <= k < 34 ==> InAddressClass(v.s[k])
  {
    if v.Str? && v.s != [] {
      ClassRunIff(v.s[1..], 33);
      if |v.s| == 34 {
        assert forall k :: 1 <= k < 34 ==> v.s[k] == v.s[1..][k - 1];
      }
    }
  }

  /** `null`, `undefined`, non-strings and the empty string are rejected. */
  lemma RejectsFalsyAndNonStrings()
    ensures !IsValidAddress(Absent) && !IsValidAddress(NonString) && !IsValidAddress(Str(""))
  {
  }

  /** An address that contains `'0'`, or whose length is not 34, is rejected. */
  lemma RejectsZeroOrWrongLength(s: string)
    requires '0' in s || |s| != 34
    ensures !IsValidAddress(Str(s))
  {
    IsValidAddressIff(Str(s));
    if |s| == 34 && '0' in s {
      var k :| 0 <= k < |s| && s[k] == '0';
      assert !InAddressClass(s[k]) && s[k] != 'T';
    }
  }

  /** The service's own USDT contract identifiers and default company address. */
  const MAINNET_USDT_CONTRACT: string := "TR7NHqjeKQxGTCi8q8ZY4pL8otSzgjLj6t"
  const TESTNET_USDT_CONTRACT: string := "TG3XXyExBkPp9nzdajDZsozEu4BkaSJozs"
  const DEFAULT_COMPANY_ADDRESS: string := "TR4Z3fYtTgGp5McMcyQrNgGjRL6jQESXBx"

  /** A well-formed example: the mainnet contract passes the check. */
  lemma MainnetContractIsValid()
    ensures IsValidAddress(Str(MAINNET_USDT_CONTRACT))
  {
    var c := MAINNET_USDT_CONTRACT;
    forall k | 1 <= k < 34 ensures InAddressClass(c[k]) {
    }
    IsValidAddressIff(Str(c));
  }

  /** The fields the service constructor sets once. */
  datatype TronService = TronService(network: string, companyAddress: string, usdtContract: string)

  /**
   * The constructor, given the environment values TRON_NETWORK and
   * COMPANY_TRC20_ADDRESS (`""` when unset): unset values fall back to
   * `mainnet` and the built-in company address.
   */
  function NewTronService(networkEnv: string, companyEnv: string): (t: TronService)
    ensures t.usdtContract == MAINNET_USDT_CONTRACT <==> t.network == "mainnet"
    ensures t.usdtContract == TESTNET_USDT_CONTRACT <==> t.network != "mainnet"
    ensures t.network == (if networkEnv == "" then "mainnet" else networkEnv)
    ensures t.companyAddress == (if companyEnv == "" then DEFAULT_COMPANY_ADDRESS else companyEnv)
  {
    var network := if networkEnv != "" then networkEnv else "mainnet";
    TronService(
      network,
      if companyEnv != "" then companyEnv else DEFAULT_COMPANY_ADDRESS,
      if network == "mainnet" then MAINNET_USDT_CONTRACT else TESTNET_USDT_CONTRACT)
  }

  /** A lower-case hexadecimal digit, as `digest('hex')` writes them. */
  predicate IsLowerHex(c: char) {
    ('0' <= c <= '9') || ('a' <= c <= 'f')
  }

  /**
   * `generateUserAddress`: `'T'` followed by the first 33 characters of a
   * hex digest (the SHA-256 of the user id and the clock, given here).
   */
  function GenerateUserAddress(digest: string): (a: string)
    ensures |digest| >= 33 ==> |a| == 34 && a[0] == 'T' && a[1..] == digest[..33]
  {
    "T" + JsString.Substring(digest, 0, 33)
  }

  /** For a hex digest, the generated address is valid exactly when its first 33 digits contain no `'0'`. */
  lemma GeneratedAddressValidIffNoZero(digest: string)
    requires |digest| >= 33
    requires forall k :: 0 <= k < |digest| ==> IsLowerHex(digest[k])
    ensures IsValidAddress(Str(GenerateUserAddress(digest))) <==> '0' !in digest[..33]
  {
    var a := GenerateUserAddress(digest);
    IsValidAddressIff(Str(a));
    assert forall k :: 1 <= k < 34 ==> a[k] == digest[..33][k - 1];
    if '0' !in digest[..33] {
      forall k | 1 <= k < 34 ensures InAddressClass(a[k]) {
        assert digest[..33][k - 1] != '0';
      }
    } else {
      var k :| 0 <= k < 33 && digest[..33][k] == '0';
      assert a[k + 1] == '0';
    }
  }

  /** So not every generated address passes the check: a digest starting with `'0'` gives an invalid one. */
  lemma SomeGeneratedAddressIsInvalid()
    ensures !IsValidAddress(Str(GenerateUserAddress(seq(64, _ => '0'))))
  {
    var digest := seq(64, _ => '0');
    var a := GenerateUserAddress(digest);
    assert a[1] == '0';
    RejectsZeroOrWrongLength(a);
  }
}
