/**
 * The Telegram Login Widget data check: the payload's fields become `key=value`
 * lines, the lines are sorted and joined with newlines, and the HMAC-SHA256 of
 * that check-string under SHA256(bot token), hex-encoded, must equal the
 * payload's hash. The service and both HTTP controllers carry identical copies
 * of this routine; the model states it once.
 */
module TelegramAuth {
  import opened Wrappers
  import opened GoText
  import opened Foreign

  /** The login payload; a field missing from the JSON body decodes to "" or 0. */
  datatype TelegramUser = TelegramUser(
    id: nat, firstName: string, lastName: string, username: string,
    authDate: int, hash: string, photoUrl: string)

  datatype VerifyError = InvalidBotToken | HashesNotEqual

  function AuthDateLine(u: TelegramUser): string { "auth_date=" + Itoa(u.authDate) }
  function FirstNameLine(u: TelegramUser): string { "first_name=" + u.firstName }
  function IdLine(u: TelegramUser): string { "id=" + Itoa(u.id) }
  function LastNameLine(u: TelegramUser): string { "last_name=" + u.lastName }
  function UsernameLine(u: TelegramUser): string { "username=" + u.username }
  function PhotoUrlLine(u: TelegramUser): string { "photo_url=" + u.photoUrl }

  /** The line for an optional field, present only when the value is non-empty. */
  function OptionalLine(line: string, value: string): seq<string>
  {
    if value == "" then [] else [line]
  }

  /**
   * The check-string lines in the order Telegram prescribes: alphabetical by key.
   * The six keys start with six different letters, so this order does not
   * depend on the values.
   */
  function CheckLines(u: TelegramUser): seq<string>
  {
    [AuthDateLine(u), FirstNameLine(u), IdLine(u)]
      + OptionalLine(LastNameLine(u), u.lastName)
      + OptionalLine(PhotoUrlLine(u), u.photoUrl)
      + OptionalLine(UsernameLine(u), u.username)
  }

  function CheckString(u: TelegramUser): string
  {
    Join(CheckLines(u), "\n")
  }

  /** hex(HMAC-SHA256(key = SHA256(botToken), message = check-string)) */
  function ExpectedHash(u: TelegramUser, botToken: string, lib: Lib): string
  {
    HexEncode(lib.hmacSha256(lib.sha256(lib.utf8(botToken)), lib.utf8(CheckString(u))))
  }

  /** The accept decision: a configured bot token and an exactly equal hash. */
  predicate Verified(u: TelegramUser, botToken: string, lib: Lib)
  {
    botToken != "" && u.hash == ExpectedHash(u, botToken, lib)
  }

  /** The verification routine as written: append the lines, sort.Strings, join, hash, compare. */
  method VerifyTelegramAuth(u: TelegramUser, botToken: string, lib: Lib) returns (err: Option<VerifyError>)
    ensures err.None? <==> Verified(u, botToken, lib)
    ensures botToken == "" ==> err == Some(InvalidBotToken)
    ensures botToken != "" && err.Some? ==> err == Some(HashesNotEqual)
  {
    if botToken == "" {
      return Some(InvalidBotToken);
    }
    var dataStrings: seq<string> := [];
    dataStrings := dataStrings + [AuthDateLine(u)];
    dataStrings := dataStrings + [FirstNameLine(u)];
    dataStrings := dataStrings + [IdLine(u)];
    ghost var expected := [AuthDateLine(u), FirstNameLine(u), IdLine(u)];
    assert dataStrings == expected;
    if u.lastName != "" {
      dataStrings := dataStrings + [LastNameLine(u)];
    }
    expected := expected + OptionalLine(LastNameLine(u), u.lastName);
    assert dataStrings == expected;
    if u.username != "" {
      dataStrings := dataStrings + [UsernameLine(u)];
    }
    expected := expected + OptionalLine(UsernameLine(u), u.username);
    assert dataStrings == expected;
    if u.photoUrl != "" {
      dataStrings := dataStrings + [PhotoUrlLine(u)];
    }
    expected := expected + OptionalLine(PhotoUrlLine(u), u.photoUrl);
    assert dataStrings == expected == AppendOrder(u);
    dataStrings := SortStrings(dataStrings);
    SortingGivesCheckLines(u);
    var checkString := Join(dataStrings, "\n");

    var secretKey := lib.sha256(lib.utf8(botToken));
    var hash := HexEncode(lib.hmacSha256(secretKey, lib.utf8(checkString)));
    if hash != u.hash {
      return Some(HashesNotEqual);
    }
    return None;
  }

  /** The lines in the order the routine appends them, before sorting. */
  function AppendOrder(u: TelegramUser): seq<string>
  {
    [AuthDateLine(u), FirstNameLine(u), IdLine(u)]
      + OptionalLine(LastNameLine(u), u.lastName)
      + OptionalLine(UsernameLine(u), u.username)
      + OptionalLine(PhotoUrlLine(u), u.photoUrl)
  }

  /** Swapping the last two blocks of a sequence keeps its multiset. */
  lemma SwapLastBlocks(x: seq<string>, y: seq<string>, z: seq<string>)
    ensures multiset(x + y + z) == multiset(x + z + y)
  {
    calc {
      multiset(x + y + z);
      multiset(x + y) + multiset(z);
      multiset(x) + multiset(y) + multiset(z);
      multiset(x + z) + multiset(y);
      multiset(x + z + y);
    }
  }

  /** Sorting the appended lines always yields the canonical order. */
  lemma SortingGivesCheckLines(u: TelegramUser)
    ensures SortStrings(AppendOrder(u)) == CheckLines(u)
  {
    var m := [AuthDateLine(u), FirstNameLine(u), IdLine(u)];
    var l := OptionalLine(LastNameLine(u), u.lastName);
    var n := OptionalLine(UsernameLine(u), u.username);
    var p := OptionalLine(PhotoUrlLine(u), u.photoUrl);
    assert AppendOrder(u) == (m + l) + n + p;
    assert CheckLines(u) == (m + l) + p + n;
    SwapLastBlocks(m + l, n, p);
    var sorted := SortStrings(AppendOrder(u));
    assert multiset(sorted) == multiset(CheckLines(u));
    CheckLinesSorted(u);
    SortedUnique(sorted, CheckLines(u));
  }

  /** Strings whose first characters strictly increase are in Go's ascending order. */
  lemma HeadsIncreasingSorted(s: seq<string>)
    requires forall i :: 0 <= i < |s| ==> |s[i]| > 0
    requires forall i, j :: 0 <= i < j < |s| ==> s[i][0] < s[j][0]
    ensures Sorted(s)
  {
    forall i, j | 0 <= i < j < |s| ensures !Less(s[j], s[i]) {
      LessAsymmetric(s[i], s[j]);
    }
  }

  /** The first letters of the check-string lines, in order. */
  function KeyLetters(u: TelegramUser): string
  {
    "afi"
      + (if u.lastName == "" then "" else "l")
      + (if u.photoUrl == "" then "" else "p")
      + (if u.username == "" then "" else "u")
  }

  lemma CheckLineHeads(u: TelegramUser)
    ensures |CheckLines(u)| == |KeyLetters(u)|
    ensures forall i :: 0 <= i < |CheckLines(u)| ==> |CheckLines(u)[i]| > 0 && CheckLines(u)[i][0] == KeyLetters(u)[i]
  {
  }

  /** The lines are already in ascending order, whatever the field values. */
  lemma CheckLinesSorted(u: TelegramUser)
    ensures Sorted(CheckLines(u))
  {
    CheckLineHeads(u);
    HeadsIncreasingSorted(CheckLines(u));
  }

  /**
   * The auth_date, first_name and id lines are always present; each optional
   * line is present exactly when its field is non-empty.
   */
  lemma CheckLinesPresence(u: TelegramUser)
    ensures AuthDateLine(u) in CheckLines(u) && FirstNameLine(u) in CheckLines(u) && IdLine(u) in CheckLines(u)
    ensures LastNameLine(u) in CheckLines(u) <==> u.lastName != ""
    ensures PhotoUrlLine(u) in CheckLines(u) <==> u.photoUrl != ""
    ensures UsernameLine(u) in CheckLines(u) <==> u.username != ""
  {
    CheckLineHeads(u);
  }

  /** The length an optional line adds to the check-string, newline included. */
  function OptionalLength(key: string, value: string): nat
  {
    if value == "" then 0 else 1 + |key| + |value|
  }

  /** An optional line adds its length and one separator, or nothing. */
  lemma OptionalLineSize(key: string, value: string)
    ensures TotalLength(OptionalLine(key + value, value)) + |OptionalLine(key + value, value)|
      == OptionalLength(key, value)
  {
    if value != "" {
      assert TotalLength([key + value]) == |key + value| + TotalLength([]);
    }
  }

  lemma {:induction false} CheckStringLength(u: TelegramUser)
    ensures |CheckString(u)| ==
      |AuthDateLine(u)| + 1 + |FirstNameLine(u)| + 1 + |IdLine(u)|
      + OptionalLength("last_name=", u.lastName)
      + OptionalLength("photo_url=", u.photoUrl)
      + OptionalLength("username=", u.username)
  {
    var m := [AuthDateLine(u), FirstNameLine(u), IdLine(u)];
    var l := OptionalLine(LastNameLine(u), u.lastName);
    var p := OptionalLine(PhotoUrlLine(u), u.photoUrl);
    var n := OptionalLine(UsernameLine(u), u.username);
    assert CheckLines(u) == m + l + p + n;
    JoinLength(CheckLines(u), "\n");
    TotalLengthAppend(m + l + p, n);
    TotalLengthAppend(m + l, p);
    TotalLengthAppend(m, l);
    assert TotalLength(m) == |AuthDateLine(u)| + |FirstNameLine(u)| + |IdLine(u)| by {
      assert m[1..] == [FirstNameLine(u), IdLine(u)];
      assert m[1..][1..] == [IdLine(u)];
      assert TotalLength([IdLine(u)]) == |IdLine(u)| + TotalLength([]);
    }
    OptionalLineSize("last_name=", u.lastName);
    OptionalLineSize("photo_url=", u.photoUrl);
    OptionalLineSize("username=", u.username);
    assert |CheckLines(u)| == 3 + |l| + |p| + |n|;
  }

  /**
   * Filling in optional fields that were empty changes the check-string, so a
   * hash computed over a payload with a field cannot be replayed without it.
   */
  lemma FillingOptionalFieldChangesCheckString(u: TelegramUser, v: TelegramUser)
    requires u.authDate == v.authDate && u.firstName == v.firstName && u.id == v.id
    requires u.lastName == "" || u.lastName == v.lastName
    requires u.photoUrl == "" || u.photoUrl == v.photoUrl
    requires u.username == "" || u.username == v.username
    requires (u.lastName == "" && v.lastName != "") || (u.photoUrl == "" && v.photoUrl != "")
      || (u.username == "" && v.username != "")
    ensures CheckString(u) != CheckString(v)
  {
    CheckStringLength(u);
    CheckStringLength(v);
  }

  /** Hex encoding is lower-case, so a hash with an upper-case hex letter is always rejected. */
  lemma UpperCaseHashRejected(u: TelegramUser, botToken: string, lib: Lib, i: int)
    requires 0 <= i < |u.hash| && 'A' <= u.hash[i] <= 'F'
    ensures !Verified(u, botToken, lib)
  {
    UpperCaseNeverEncoded(lib.hmacSha256(lib.sha256(lib.utf8(botToken)), lib.utf8(CheckString(u))), u.hash, i);
  }
}
