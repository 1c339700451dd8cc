/**
 * Wallet sign-in and token generation: `processWallet` walks the session / nonce / sign / verify
 * chain for one private key and yields a bearer token or nothing; `getTokensFromWallets` runs it
 * for every key found in the wallet file and writes the tokens obtained to the token file.
 * The replies of the remote service, the wallet address derived from a key and the signing time
 * are inputs (`Replies`); key derivation and signing are not modelled.
 */
module Auth {
  import opened Options
  import opened Text
  import opened LineFiles
  import opened WalletKeys

  /** The body of a verify reply: `success` as a truthiness and `data`, absent when missing. */
  datatype VerifyReply = VerifyReply(success: bool, data: Option<VerifyData>)

  /** `data.token`, absent when missing or null. */
  datatype VerifyData = VerifyData(token: Option<string>)

  /**
   * What the outside world answers while one wallet signs in. `keyAccepted` says whether
   * `new ethers.Wallet(key)` accepted the key, `address` is the wallet's address, `session` the
   * truthiness of the session reply (false when the request failed), `nonce` the nonce (absent when
   * the request failed), `issuedAt` the signing time, and `verify` the verify reply (absent when the
   * request failed).
   */
  datatype Replies = Replies(
    keyAccepted: bool,
    address: string,
    session: bool,
    nonce: Option<string>,
    issuedAt: string,
    verify: Option<VerifyReply>)

  /**
   * A request issued to the service. `Verify(address, nonce, issuedAt)` posts
   * `SignInMessage(address, nonce, issuedAt)` with its signature.
   */
  datatype Call = GetSession | GetNonce | Verify(address: string, nonce: string, issuedAt: string)

  /** The requests one sign-in issued, in order, and the token it yielded. */
  datatype Attempt = Attempt(calls: seq<Call>, token: Option<string>)

  /** The service's domain, named by the first line and by the URI line. */
  const Domain: string := "web3.fireverseai.com"

  /** The first line of the template: `<domain> wants you to sign in with your Ethereum account:`. */
  const Header: string := Domain + " wants you to sign in" + " with your Ethereum account:"

  /** The lines of `signMessage`'s template (an EIP-4361 sign-in message). */
  function SignInLines(address: string, nonce: string, issuedAt: string): seq<string> {
    [ Header,
      address,
      "",
      "Please sign with your account",
      "",
      "URI: https://" + Domain,
      "Version: 1",
      "Chain ID: 8453",
      "Nonce: " + nonce,
      "Issued At: " + issuedAt ]
  }

  /** `signMessage`'s `messageToSign`: the template lines joined by line breaks. */
  function SignInMessage(address: string, nonce: string, issuedAt: string): string {
    Join(SignInLines(address, nonce, issuedAt), '\n')
  }

  /**
   * When the address, nonce and time contain no line break, the message splits back into exactly
   * the template lines, so the address, the nonce and the time are recoverable from their own lines.
   */
  lemma SignInMessageLines(address: string, nonce: string, issuedAt: string)
    requires '\n' !in address && '\n' !in nonce && '\n' !in issuedAt
    ensures Split(SignInMessage(address, nonce, issuedAt), '\n') == SignInLines(address, nonce, issuedAt)
  {
    var lines := SignInLines(address, nonce, issuedAt);
    HeaderUnbroken();
    FixedLinesUnbroken();
    PrefixesUnbroken();
    forall i | 0 <= i < |lines| ensures '\n' !in lines[i] {
    }
    SplitJoin(lines, '\n');
  }

  lemma HeaderUnbroken()
    ensures '\n' !in Header
  {
    assert '\n' !in Domain;
    assert '\n' !in " wants you to sign in";
    assert '\n' !in " with your Ethereum account:";
  }

  lemma FixedLinesUnbroken()
    ensures '\n' !in "Please sign with your account" && '\n' !in "URI: https://" + Domain
  {
    assert '\n' !in Domain;
    assert '\n' !in "URI: https://";
  }

  lemma PrefixesUnbroken()
    ensures '\n' !in "Version: 1" && '\n' !in "Chain ID: 8453"
    ensures '\n' !in "Nonce: " && '\n' !in "Issued At: "
  {
  }

  /**
   * `processWallet`: stops with nothing at the first failure, issuing no further request: an
   * unusable key, no session, no nonce (or an empty one), a failed verify request, an unsuccessful
   * verification, or a reply without `data` (reading `data.token` throws and is caught). Otherwise
   * the token is `data.token`.
   */
  function ProcessWallet(r: Replies): Attempt {
    if !r.keyAccepted then Attempt([], None)
    else if !r.session then Attempt([GetSession], None)
    else if !TruthyString(r.nonce) then Attempt([GetSession, GetNonce], None)
    else
      var calls := [GetSession, GetNonce, Verify(r.address, r.nonce.value, r.issuedAt)];
      match r.verify
      case None => Attempt(calls, None)
      case Some(v) =>
        if !v.success then Attempt(calls, None)
        else match v.data
          case None => Attempt(calls, None)
          case Some(d) => Attempt(calls, d.token)
  }

  /**
   * The request order of one sign-in: a prefix of session, nonce, verify; a nonce is asked for only
   * after a truthy session, a verify only after a truthy nonce, and the verified message carries
   * that nonce; a token comes back only from a successful verification that carried it, and then
   * all three requests were made.
   */
  lemma ProcessWalletProtocol(r: Replies)
    ensures var a := ProcessWallet(r);
            && |a.calls| <= 3
            && (|a.calls| >= 1 ==> r.keyAccepted && a.calls[0] == GetSession)
            && (|a.calls| >= 2 ==> r.session && a.calls[1] == GetNonce)
            && (|a.calls| == 3 ==> TruthyString(r.nonce)
                                   && a.calls[2] == Verify(r.address, r.nonce.value, r.issuedAt))
            && (a.token.Some? <==>
                  |a.calls| == 3 && r.verify.Some? && r.verify.value.success
                  && r.verify.value.data.Some? && r.verify.value.data.value.token.Some?)
            && (a.token.Some? ==> a.token == r.verify.value.data.value.token)
  {
  }

  /** A sign-in that fails before verifying issues no verify request, whatever the service would answer. */
  lemma NoNonceNoVerify(r: Replies)
    requires !TruthyString(r.nonce)
    ensures forall c :: c in ProcessWallet(r).calls ==> !c.Verify?
  {
  }

  /** The tokens kept from the first `n` wallets: the truthy results of `processWallet`, in wallet order. */
  function Collected(auth: nat -> Replies, n: nat): seq<string>
    decreases n
  {
    if n == 0 then []
    else
      var t := ProcessWallet(auth(n - 1)).token;
      Collected(auth, n - 1) + (if TruthyString(t) then [t.value] else [])
  }

  /** At most one token per wallet, none of them empty, each the token of some wallet's sign-in. */
  lemma {:induction false} CollectedFacts(auth: nat -> Replies, n: nat)
    ensures |Collected(auth, n)| <= n
    ensures forall j :: 0 <= j < |Collected(auth, n)| ==> Collected(auth, n)[j] != []
    ensures forall j :: 0 <= j < |Collected(auth, n)| ==>
              exists w :: 0 <= w < n && ProcessWallet(auth(w)).token == Some(Collected(auth, n)[j])
    decreases n
  {
    if n > 0 {
      CollectedFacts(auth, n - 1);
      var prev := Collected(auth, n - 1);
      var t := ProcessWallet(auth(n - 1)).token;
      var all := Collected(auth, n);
      forall j | 0 <= j < |all|
        ensures all[j] != []
        ensures exists w :: 0 <= w < n && ProcessWallet(auth(w)).token == Some(all[j])
      {
        if j < |prev| {
          assert all[j] == prev[j];
          var w :| 0 <= w < n - 1 && ProcessWallet(auth(w)).token == Some(prev[j]);
        } else {
          assert all[j] == t.value;
        }
      }
    }
  }

  /** When every wallet signs in with a token, every wallet's token is kept, in wallet order. */
  lemma {:induction false} CollectedAll(auth: nat -> Replies, n: nat)
    requires forall w :: 0 <= w < n ==> TruthyString(ProcessWallet(auth(w)).token)
    ensures |Collected(auth, n)| == n
    ensures forall w :: 0 <= w < n ==> Some(Collected(auth, n)[w]) == ProcessWallet(auth(w)).token
    decreases n
  {
    if n > 0 {
      CollectedAll(auth, n - 1);
    }
  }

  /** The tokens kept from the first `m` wallets are a prefix of those kept from the first `n >= m`. */
  lemma {:induction false} CollectedPrefix(auth: nat -> Replies, m: nat, n: nat)
    requires m <= n
    ensures Collected(auth, m) <= Collected(auth, n)
    decreases n
  {
    if m < n {
      CollectedPrefix(auth, m, n - 1);
      assert Collected(auth, n - 1) <= Collected(auth, n);
    }
  }

  /**
   * Completeness, whatever mix of wallets succeeds: a wallet that signs in with a token has it kept,
   * right after the tokens of the wallets before it.
   */
  lemma CollectedComplete(auth: nat -> Replies, n: nat, w: nat)
    requires w < n && TruthyString(ProcessWallet(auth(w)).token)
    ensures ProcessWallet(auth(w)).token.value in Collected(auth, n)
    ensures var i := |Collected(auth, w)|;
            i < |Collected(auth, n)| && Collected(auth, n)[i] == ProcessWallet(auth(w)).token.value
  {
    CollectedPrefix(auth, w + 1, n);
    var i := |Collected(auth, w)|;
    assert Collected(auth, w + 1)[i] == ProcessWallet(auth(w)).token.value;
  }

  /** Wallet order: the token of an earlier wallet sits before that of a later one. */
  lemma CollectedOrder(auth: nat -> Replies, n: nat, w1: nat, w2: nat)
    requires w1 < w2 < n
    requires TruthyString(ProcessWallet(auth(w1)).token) && TruthyString(ProcessWallet(auth(w2)).token)
    ensures var i1, i2, kept := |Collected(auth, w1)|, |Collected(auth, w2)|, Collected(auth, n);
            && i1 < i2 < |kept|
            && kept[i1] == ProcessWallet(auth(w1)).token.value
            && kept[i2] == ProcessWallet(auth(w2)).token.value
  {
    CollectedComplete(auth, n, w1);
    CollectedComplete(auth, n, w2);
    CollectedComplete(auth, w2, w1);
  }

  /**
   * What `getTokensFromWallets` does to the token file: nothing when the wallet file cannot be read
   * or holds no key; otherwise it is overwritten with the tokens collected from all the keys, one
   * per line, even when no wallet yielded a token.
   */
  ghost predicate WroteTokens(walletFile: Option<string>, tokenFile: Option<string>, auth: nat -> Replies,
                              newTokenFile: Option<string>)
  {
    && (walletFile.None? ==> newTokenFile == tokenFile)
    && (walletFile.Some? && ScanKeys(walletFile.value) == [] ==> newTokenFile == tokenFile)
    && (walletFile.Some? && ScanKeys(walletFile.value) != [] ==>
          newTokenFile == Some(Join(Collected(auth, |ScanKeys(walletFile.value)|), '\n')))
  }

  /**
   * `getTokensFromWallets`, with the files as values: the wallet file's content (absent when it
   * cannot be read), the token file's content before, and the replies for the `i`-th wallet. It
   * returns the token file's content after.
   */
  method GetTokensFromWallets(walletFile: Option<string>, tokenFile: Option<string>, auth: nat -> Replies)
    returns (newTokenFile: Option<string>)
    ensures WroteTokens(walletFile, tokenFile, auth, newTokenFile)
  {
    if walletFile.None? {
      return tokenFile;
    }
    var privateKeys := ScanKeys(walletFile.value);
    if |privateKeys| == 0 {
      return tokenFile;
    }
    var tokens: seq<string> := [];
    for i := 0 to |privateKeys|
      invariant tokens == Collected(auth, i)
    {
      var token := ProcessWallet(auth(i)).token;
      if TruthyString(token) {
        tokens := tokens + [token.value];
      }
    }
    newTokenFile := Some(Join(tokens, '\n'));
  }

  /** Without a usable wallet file the tokens read afterwards are those already in the token file. */
  lemma StaleTokensKept(walletFile: Option<string>, tokenFile: Option<string>, auth: nat -> Replies,
                        newTokenFile: Option<string>)
    requires WroteTokens(walletFile, tokenFile, auth, newTokenFile)
    requires walletFile.None? || ScanKeys(walletFile.value) == []
    ensures ReadTokens(newTokenFile) == ReadTokens(tokenFile)
  {
  }

  /**
   * When the wallet file holds keys but no wallet obtains a token, the token file is emptied, so
   * no token is read afterwards, whatever the token file held before.
   */
  lemma FailedSignInsEmptyTokenFile(walletFile: Option<string>, tokenFile: Option<string>, auth: nat -> Replies,
                                    newTokenFile: Option<string>)
    requires WroteTokens(walletFile, tokenFile, auth, newTokenFile)
    requires walletFile.Some? && ScanKeys(walletFile.value) != []
    requires Collected(auth, |ScanKeys(walletFile.value)|) == []
    ensures newTokenFile == Some([]) && ReadTokens(newTokenFile) == []
  {
    assert Split([], '\n') == [[]];
    assert Keep([]) == [];
  }

  /**
   * The token file written by `getTokensFromWallets` is read back by `readTokensFromFile` as exactly
   * the tokens obtained, in wallet order, provided each token has no surrounding white space, no
   * line break and does not start with '#'.
   */
  lemma GeneratedTokensReadBack(auth: nat -> Replies, n: nat)
    requires forall j :: 0 <= j < |Collected(auth, n)| ==> IsStorableToken(Collected(auth, n)[j])
    ensures ReadTokens(Some(Join(Collected(auth, n), '\n'))) == Collected(auth, n)
  {
    TokenFileRoundTrip(Collected(auth, n));
  }
}
