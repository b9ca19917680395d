/** API keys: their format, the table of issued keys, and whom a presented key stands for. */
module ApiKeys {
  import opened Domain

  const SCHEME := "map_live_"
  const BEARER := "Bearer "
  const PREFIX_LENGTH := 12
  const SECRET_LENGTH := 32

  // ---- the format

  predicate Alphanumeric(c: char) {
    '0' <= c <= '9' || 'A' <= c <= 'Z' || 'a' <= c <= 'z'
  }

  /** What drawing `n` characters from the alphanumeric distribution can give. */
  predicate Sampled(s: string, n: nat) {
    |s| == n && forall i | 0 <= i < |s| :: Alphanumeric(s[i])
  }

  function LowerChar(c: char): char {
    if 'A' <= c <= 'Z' then c + 32 as char else c
  }

  function ToLowercase(s: string): (r: string)
    ensures |r| == |s|
  {
    seq(|s|, i requires 0 <= i < |s| => LowerChar(s[i]))
  }

  function FormatKey(prefix: string, secret: string): string {
    SCHEME + prefix + "_" + secret
  }

  /** What stands before the first underscore. */
  function BeforeUnderscore(s: string): Option<string> {
    if s == "" then None
    else if s[0] == '_' then Some("")
    else
      match BeforeUnderscore(s[1..])
      case None => None
      case Some(rest) => Some([s[0]] + rest)
  }

  function ExtractKeyPrefix(key: string): Option<string> {
    if SCHEME <= key then BeforeUnderscore(key[|SCHEME|..]) else None
  }

  lemma {:induction false} BeforeUnderscoreExactly(s: string, prefix: string)
    ensures BeforeUnderscore(s) == Some(prefix) <==> '_' !in prefix && prefix + "_" <= s
    decreases |s|
  {
    if s != "" && s[0] != '_' {
      if prefix == "" {
        assert prefix + "_" == "_";
      } else {
        BeforeUnderscoreExactly(s[1..], prefix[1..]);
        assert prefix == [prefix[0]] + prefix[1..];
        assert prefix + "_" <= s <==> prefix[0] == s[0] && prefix[1..] + "_" <= s[1..] by {
          assert prefix + "_" == [prefix[0]] + (prefix[1..] + "_");
          assert s == [s[0]] + s[1..];
        }
      }
    }
  }

  /** A prefix is extracted exactly from the keys that are formatted with it, and never contains an underscore. */
  lemma ExtractExactly(key: string, prefix: string)
    ensures ExtractKeyPrefix(key) == Some(prefix)
            <==> '_' !in prefix && exists secret :: key == FormatKey(prefix, secret)
  {
    if SCHEME <= key {
      var rest := key[|SCHEME|..];
      BeforeUnderscoreExactly(rest, prefix);
      if prefix + "_" <= rest {
        var secret := rest[|prefix| + 1..];
        assert rest == prefix + "_" + secret;
        assert key == SCHEME + rest;
        assert key == FormatKey(prefix, secret);
      }
    }
    if secret :| key == FormatKey(prefix, secret) {
      assert key == SCHEME + (prefix + "_" + secret);
      assert key[|SCHEME|..] == prefix + "_" + secret;
    }
  }

  /** The round trip holds for exactly the prefixes without an underscore. */
  lemma PrefixRoundTrip(prefix: string, secret: string)
    ensures ExtractKeyPrefix(FormatKey(prefix, secret)) == Some(prefix) <==> '_' !in prefix
  {
    ExtractExactly(FormatKey(prefix, secret), prefix);
  }

  /** The same letter or digit, a letter in lower case. */
  predicate CaseFolded(c: char, d: char) {
    if 'A' <= c <= 'Z' then 'a' <= d <= 'z' && d as int - 'a' as int == c as int - 'A' as int else d == c
  }

  /** An issued prefix is what was drawn with its letters in lower case: digits and lower-case letters only. */
  lemma SampledPrefix(sample: string, n: nat)
    requires Sampled(sample, n)
    ensures var prefix := ToLowercase(sample);
            && |prefix| == n && '_' !in prefix
            && forall i :: 0 <= i < n ==>
                 CaseFolded(sample[i], prefix[i]) && ('0' <= prefix[i] <= '9' || 'a' <= prefix[i] <= 'z')
  {
    var prefix := ToLowercase(sample);
    forall i | 0 <= i < |prefix|
      ensures CaseFolded(sample[i], prefix[i]) && ('0' <= prefix[i] <= '9' || 'a' <= prefix[i] <= 'z')
    {
      assert Alphanumeric(sample[i]) && prefix[i] == LowerChar(sample[i]);
    }
  }

  // ---- issuing and presenting keys

  /** Argon2 as far as it matters: hashing with a salt, whether a stored hash parses, whether a key matches it. */
  datatype Hashing = Hashing(hash: (string, nat) -> string, parses: string -> bool, verify: (string, string) -> bool)

  /** Verifying accepts the hash of the same key; nothing else is taken for granted. */
  ghost predicate Sound(h: Hashing) {
    forall key, salt :: h.parses(h.hash(key, salt)) && h.verify(key, h.hash(key, salt))
  }

  /** A row of `api_keys`; no statement ever sets `revoked_at`. */
  datatype KeyRow = KeyRow(prefix: string, tenant: Id, hash: string)

  /** One call of `create_api_key`, with what the generators drew. */
  datatype Issue = Issue(tenant: Id, sample: string, secret: string, salt: nat)

  predicate Drawn(i: Issue) {
    Sampled(i.sample, PREFIX_LENGTH) && Sampled(i.secret, SECRET_LENGTH)
  }

  function KeyOf(i: Issue): string {
    FormatKey(ToLowercase(i.sample), i.secret)
  }

  function RowOf(h: Hashing, i: Issue): KeyRow {
    KeyRow(ToLowercase(i.sample), i.tenant, h.hash(KeyOf(i), i.salt))
  }

  predicate PrefixFree(rows: set<KeyRow>, prefix: string) {
    forall row | row in rows :: row.prefix != prefix
  }

  /** The unique index on `key_prefix`. */
  ghost predicate PrefixesUnique(rows: set<KeyRow>) {
    forall x, y | x in rows && y in rows :: x.prefix == y.prefix ==> x == y
  }

  /** The rows after a history of calls; a call whose prefix is taken fails and leaves no row. */
  function Issued(h: Hashing, history: seq<Issue>): set<KeyRow> {
    if history == [] then {}
    else
      var rows, last := Issued(h, history[..|history| - 1]), history[|history| - 1];
      if PrefixFree(rows, ToLowercase(last.sample)) then rows + {RowOf(h, last)} else rows
  }

  datatype AuthResult = Authenticated(tenant: Id) | InvalidApiKey | CorruptHash

  function VerifyApiKey(h: Hashing, key: string, row: KeyRow): AuthResult {
    if !h.parses(row.hash) then CorruptHash
    else if h.verify(key, row.hash) then Authenticated(row.tenant)
    else InvalidApiKey
  }

  /** The row a presented key is checked against. */
  predicate Matches(row: KeyRow, header: Option<string>) {
    && header.Some? && BEARER <= header.value
    && ExtractKeyPrefix(header.value[|BEARER|..]) == Some(row.prefix)
  }

  /** The stored hash is one, and the key in the header is the one it was made of. */
  predicate Verifies(h: Hashing, row: KeyRow, header: Option<string>)
    requires Matches(row, header)
  {
    h.parses(row.hash) && h.verify(header.value[|BEARER|..], row.hash)
  }

  /**
   What a header is resolved to: the one row that its key is checked against decides. A key that does not
   verify is invalid like one without a row; only a stored hash that does not parse is an internal error.
   */
  ghost predicate Resolves(h: Hashing, rows: set<KeyRow>, header: Option<string>, r: AuthResult) {
    && (forall row :: row in rows && Matches(row, header) ==>
          && (r == CorruptHash <==> !h.parses(row.hash))
          && (r == Authenticated(row.tenant) <==> Verifies(h, row, header))
          && (r.Authenticated? ==> r.tenant == row.tenant))
    && ((forall row :: row in rows ==> !Matches(row, header)) ==> r == InvalidApiKey)
  }

  class KeyTable {
    var rows: set<KeyRow>

    constructor ()
      ensures rows == {}
    {
      rows := {};
    }

    /** The key in clear, or None when the prefix collides. */
    method CreateApiKey(h: Hashing, issue: Issue) returns (key: Option<string>)
      modifies this
      ensures PrefixesUnique(old(rows)) ==> PrefixesUnique(rows)
      ensures key.None? <==> exists row :: row in old(rows) && row.prefix == ToLowercase(issue.sample)
      ensures key.None? ==> rows == old(rows)
      ensures key.Some? ==>
        var prefix := ToLowercase(issue.sample);
        && key.value == "map_live_" + prefix + "_" + issue.secret
        && rows == old(rows) + {KeyRow(prefix, issue.tenant, h.hash(key.value, issue.salt))}
      ensures forall history :: Issued(h, history) == old(rows) ==> Issued(h, history + [issue]) == rows
    {
      forall history | Issued(h, history) == rows
        ensures Issued(h, history + [issue])
             == if PrefixFree(rows, ToLowercase(issue.sample)) then rows + {RowOf(h, issue)} else rows
      {
        IssuedNext(h, history, issue);
      }
      var row := RowOf(h, issue);
      if PrefixFree(rows, row.prefix) {
        rows := rows + {row};
        key := Some(KeyOf(issue));
      } else {
        key := None;
      }
    }

    method Authenticate(h: Hashing, header: Option<string>) returns (r: AuthResult)
      requires PrefixesUnique(rows)
      ensures Resolves(h, rows, header, r)
    {
      if header.None? || !(BEARER <= header.value) {
        return InvalidApiKey;
      }
      var key := header.value[|BEARER|..];
      var prefix := ExtractKeyPrefix(key);
      if prefix.None? || PrefixFree(rows, prefix.value) {
        return InvalidApiKey;
      }
      var row :| row in rows && row.prefix == prefix.value;
      r := VerifyApiKey(h, key, row);
    }
  }

  /** The rows after one more call, as the contract of `CreateApiKey` has them. */
  lemma IssuedNext(h: Hashing, history: seq<Issue>, issue: Issue)
    ensures Issued(h, history + [issue])
         == if PrefixFree(Issued(h, history), ToLowercase(issue.sample)) then Issued(h, history) + {RowOf(h, issue)}
            else Issued(h, history)
  {
    assert (history + [issue])[..|history|] == history;
  }

  /** The call at `i` was not refused. */
  predicate Accepted(h: Hashing, history: seq<Issue>, i: nat)
    requires i < |history|
  {
    PrefixFree(Issued(h, history[..i]), ToLowercase(history[i].sample))
  }

  lemma {:induction false} IssuedUnique(h: Hashing, history: seq<Issue>)
    ensures PrefixesUnique(Issued(h, history))
    decreases |history|
  {
    if history != [] {
      IssuedUnique(h, history[..|history| - 1]);
    }
  }

  /** The call at `i` issued the row. */
  predicate Issues(h: Hashing, history: seq<Issue>, i: nat, row: KeyRow)
    requires i < |history|
  {
    Accepted(h, history, i) && row == RowOf(h, history[i])
  }

  /** Later calls do not matter. */
  lemma IssuesBefore(h: Hashing, history: seq<Issue>, n: nat, i: nat, row: KeyRow)
    requires i < n <= |history|
    ensures Issues(h, history[..n], i, row) == Issues(h, history, i, row)
  {
    assert history[..n][..i] == history[..i];
  }

  /** The rows are those of the accepted calls. */
  lemma {:induction false} IssuedRows(h: Hashing, history: seq<Issue>, row: KeyRow)
    ensures row in Issued(h, history) <==> exists i | 0 <= i < |history| :: Issues(h, history, i, row)
    decreases |history|
  {
    if history != [] {
      var n := |history| - 1;
      var before := history[..n];
      IssuedRows(h, before, row);
      assert row in Issued(h, history) <==> row in Issued(h, before) || Issues(h, history, n, row);
      if i :| 0 <= i < n && Issues(h, before, i, row) {
        IssuesBefore(h, history, n, i, row);
      }
      if i :| 0 <= i < |history| && Issues(h, history, i, row) && i != n {
        IssuesBefore(h, history, n, i, row);
      }
    }
  }

  lemma KeyMatchesItsRow(h: Hashing, i: Issue)
    requires Drawn(i)
    ensures Matches(RowOf(h, i), Some(BEARER + KeyOf(i)))
    ensures (BEARER + KeyOf(i))[|BEARER|..] == KeyOf(i)
  {
    SampledPrefix(i.sample, PREFIX_LENGTH);
    PrefixRoundTrip(ToLowercase(i.sample), i.secret);
    assert (BEARER + KeyOf(i))[|BEARER|..] == KeyOf(i);
  }

  /** After any history of calls every key that was issued stands for the tenant it was issued for. */
  lemma IssuedKeysAuthenticate(h: Hashing, history: seq<Issue>, i: nat, r: AuthResult)
    requires Sound(h) && i < |history| && Drawn(history[i]) && Accepted(h, history, i)
    requires Resolves(h, Issued(h, history), Some("Bearer " + KeyOf(history[i])), r)
    ensures r == Authenticated(history[i].tenant)
  {
    KeyMatchesItsRow(h, history[i]);
    assert Issues(h, history, i, RowOf(h, history[i]));
    IssuedRows(h, history, RowOf(h, history[i]));
  }

  /** The header's key verifies against the key that the call at `i` issued. */
  predicate VerifiesIssued(h: Hashing, history: seq<Issue>, i: nat, header: Option<string>)
    requires i < |history|
  {
    && Accepted(h, history, i) && Matches(RowOf(h, history[i]), header)
    && Verifies(h, RowOf(h, history[i]), header)
  }

  /** A header stands for a tenant exactly when its key verifies against a key issued to it with its prefix. */
  lemma OnlyIssuedKeysAuthenticate(h: Hashing, history: seq<Issue>, header: Option<string>, r: AuthResult, t: Id)
    requires Resolves(h, Issued(h, history), header, r)
    ensures r == Authenticated(t) <==>
              exists i | 0 <= i < |history| :: history[i].tenant == t && VerifiesIssued(h, history, i, header)
  {
    var rows := Issued(h, history);
    IssuedUnique(h, history);
    if r == Authenticated(t) {
      var row :| row in rows && Matches(row, header);
      IssuedRows(h, history, row);
      var i :| 0 <= i < |history| && Issues(h, history, i, row);
      assert VerifiesIssued(h, history, i, header);
    }
    if i :| 0 <= i < |history| && history[i].tenant == t && VerifiesIssued(h, history, i, header) {
      assert Issues(h, history, i, RowOf(h, history[i]));
      IssuedRows(h, history, RowOf(h, history[i]));
    }
  }

  /** Against issued keys authentication never ends in an internal error: every other key is an invalid one. */
  lemma OtherKeysAreInvalid(h: Hashing, history: seq<Issue>, header: Option<string>, r: AuthResult)
    requires Sound(h) && Resolves(h, Issued(h, history), header, r)
    ensures r != CorruptHash
    ensures r == InvalidApiKey <==> !exists i | 0 <= i < |history| :: VerifiesIssued(h, history, i, header)
  {
    var rows := Issued(h, history);
    if r == CorruptHash {
      var row :| row in rows && Matches(row, header);
      IssuedRows(h, history, row);
      assert false;
    }
    if i :| 0 <= i < |history| && VerifiesIssued(h, history, i, header) {
      OnlyIssuedKeysAuthenticate(h, history, header, r, history[i].tenant);
    }
    if r.Authenticated? {
      OnlyIssuedKeysAuthenticate(h, history, header, r, r.tenant);
    }
  }
}
