/** Resolving an SCM author name to a host user: by login first; failing that, a name with an
    '@' is taken as an e-mail address (the part between angle brackets when it embeds one) and
    looked up in an e-mail -> user map that is built once from all host users. */
module Users {
  import opened Common

  /** The host's UserFinder: the lookup by login and the list of all users, in query order. */
  datatype UserFinder = UserFinder(byLogin: map<string, User>, all: seq<User>)

  /** `isEmailAddress`: the name contains '@'. */
  predicate IsEmailAddress(userName: string)
  {
    '@' in userName
  }

  /** Some `b` in `s` is followed, later, by a `c`: the first `b` followed by a `c`. */
  predicate FollowedBy(s: string, b: char, c: char)
  {
    var i := IndexOfChar(s, b);
    i != -1 && c in s[i + 1..]
  }

  /** `b` at `i` and `c` at the later position `k`. */
  predicate PairAt(s: string, b: char, c: char, i: int, k: int)
  {
    0 <= i < k < |s| && s[i] == b && s[k] == c
  }

  /** '<', '@' and '>' at increasing positions. */
  predicate EmbeddedAt(s: string, i: int, j: int, k: int)
  {
    0 <= i < j < k < |s| && s[i] == '<' && s[j] == '@' && s[k] == '>'
  }

  lemma FollowedByIff(s: string, b: char, c: char)
    ensures FollowedBy(s, b, c) <==> exists i, k :: PairAt(s, b, c, i, k)
  {
    var i0 := IndexOfChar(s, b);
    if FollowedBy(s, b, c) {
      var k' :| 0 <= k' < |s[i0 + 1..]| && s[i0 + 1..][k'] == c;
      assert PairAt(s, b, c, i0, i0 + 1 + k');
    }
    if exists i, k :: PairAt(s, b, c, i, k) {
      var i, k :| PairAt(s, b, c, i, k);
      assert b in s[..i + 1] by { assert s[..i + 1][i] == b; }
      assert i0 != -1;
      assert s[i0 + 1..][k - i0 - 1] == c;
    }
  }

  /** `hasEmbeddedEmailAddress`: the name matches `.*<.*@.*>.*` somewhere, computed as the
      first '<' followed by an '@' that is followed by a '>'. */
  function HasEmbeddedEmailAddress(userName: string): (r: bool)
    ensures r <==> exists i, j, k :: EmbeddedAt(userName, i, j, k)
  {
    var i0 := IndexOfChar(userName, '<');
    var r := i0 != -1 && FollowedBy(userName[i0 + 1..], '@', '>');
    EmbeddedIff(userName);
    r
  }

  lemma EmbeddedIff(userName: string)
    ensures var i0 := IndexOfChar(userName, '<');
      (i0 != -1 && FollowedBy(userName[i0 + 1..], '@', '>')) <==>
      exists i, j, k :: EmbeddedAt(userName, i, j, k)
  {
    var i0 := IndexOfChar(userName, '<');
    if i0 != -1 {
      var rest := userName[i0 + 1..];
      if FollowedBy(rest, '@', '>') {
        EmbeddedFromGreedy(userName, i0);
      }
      if exists i, j, k :: EmbeddedAt(userName, i, j, k) {
        GreedyFromEmbedded(userName);
      }
    }
  }

  lemma EmbeddedFromGreedy(userName: string, i0: int)
    requires 0 <= i0 < |userName| && userName[i0] == '<'
    requires FollowedBy(userName[i0 + 1..], '@', '>')
    ensures exists i, j, k :: EmbeddedAt(userName, i, j, k)
  {
    var rest := userName[i0 + 1..];
    FollowedByIff(rest, '@', '>');
    var j, k :| PairAt(rest, '@', '>', j, k);
    assert EmbeddedAt(userName, i0, i0 + 1 + j, i0 + 1 + k);
  }

  lemma GreedyFromEmbedded(userName: string)
    requires exists i, j, k :: EmbeddedAt(userName, i, j, k)
    ensures var i0 := IndexOfChar(userName, '<');
      i0 != -1 && FollowedBy(userName[i0 + 1..], '@', '>')
  {
    var i, j, k :| EmbeddedAt(userName, i, j, k);
    var i0 := IndexOfChar(userName, '<');
    assert userName[..i + 1][i] == '<';
    assert i0 <= i;
    var rest := userName[i0 + 1..];
    assert PairAt(rest, '@', '>', j - i0 - 1, k - i0 - 1);
    FollowedByIff(rest, '@', '>');
  }

  /** `extractEmail`: from just after the first '<' (from the start when there is none) up to
      the next '>'; without such a '>' the substring throws. */
  function ExtractEmail(userName: string): (r: Result<string>)
    ensures var tail := userName[IndexOfChar(userName, '<') + 1..];
      && (r.Ok? <==> '>' in tail)
      && (r.Ok? ==> |r.value| < |tail| && r.value == tail[..|r.value|] && tail[|r.value|] == '>' && '>' !in r.value)
      && (r.Err? ==> r.error == IndexOutOfBounds)
  {
    var tail := userName[IndexOfChar(userName, '<') + 1..];
    var e := IndexOfChar(tail, '>');
    if e == -1 then Err(IndexOutOfBounds)
    else
      var email := tail[..e];
      assert |email| == e && tail[e] == '>' && '>' !in email;
      Ok(email)
  }

  /** The round trip: an address written between angle brackets after a prefix without '<'
      is extracted exactly. */
  lemma ExtractEmbedded(prefix: string, email: string, suffix: string)
    requires '<' !in prefix && '>' !in email
    ensures ExtractEmail(prefix + "<" + email + ">" + suffix) == Ok(email)
  {
    var name := prefix + "<" + email + ">" + suffix;
    assert name[..|prefix|] == prefix && name[|prefix|] == '<';
    assert IndexOfChar(name, '<') == |prefix|;
    var tail := name[|prefix| + 1..];
    assert tail == email + ">" + suffix;
    assert tail[..|email|] == email && tail[|email|] == '>';
    assert IndexOfChar(tail, '>') == |email|;
  }

  /** A name with an embedded address always has a '>' after its first '<', so extraction
      cannot fail on it. */
  lemma EmbeddedExtractionSucceeds(userName: string)
    requires HasEmbeddedEmailAddress(userName)
    ensures ExtractEmail(userName).Ok?
  {
    var i0 := IndexOfChar(userName, '<');
    var i, j, k :| EmbeddedAt(userName, i, j, k);
    assert userName[..i + 1][i] == '<';
    assert userName[i0 + 1..][k - i0 - 1] == '>';
  }

  /** `StringUtils.isNotEmpty` on the user's e-mail. */
  predicate HasEmail(user: User)
  {
    user.email.Some? && user.email.value != ""
  }

  /** The e-mail -> user map `initialiseUserMap` builds from `users`: each user with a non-empty
      e-mail put in order, so the last user with a given address wins. */
  function EmailIndex(users: seq<User>): (index: map<string, User>)
    ensures forall e :: e in index <==> exists i :: 0 <= i < |users| && HasEmail(users[i]) && users[i].email.value == e
    ensures forall e :: e in index ==> index[e].email == Some(e) && index[e] in users
  {
    if |users| == 0 then map[]
    else
      var earlier := EmailIndex(users[..|users| - 1]);
      var user := users[|users| - 1];
      assert forall i :: 0 <= i < |users| - 1 ==> users[..|users| - 1][i] == users[i];
      assert forall u :: u in users[..|users| - 1] ==> u in users;
      if HasEmail(user) then earlier[user.email.value := user] else earlier
  }

  /** One more user: put in the index when they have an e-mail. */
  lemma EmailIndexSnoc(users: seq<User>, i: nat)
    requires i < |users|
    ensures EmailIndex(users[..i + 1]) ==
      if HasEmail(users[i]) then EmailIndex(users[..i])[users[i].email.value := users[i]] else EmailIndex(users[..i])
  {
    assert users[..i + 1][..i] == users[..i];
  }

  /** A later user with the same e-mail overwrites an earlier one: the map holds, for every
      address, the last user that has it. */
  lemma {:induction false} EmailIndexLastWins(users: seq<User>, i: nat)
    requires i < |users| && HasEmail(users[i])
    requires forall j :: i < j < |users| ==> users[j].email != users[i].email
    ensures users[i].email.value in EmailIndex(users)
    ensures EmailIndex(users)[users[i].email.value] == users[i]
    decreases |users|
  {
    if i < |users| - 1 {
      var init := users[..|users| - 1];
      assert init[i] == users[i];
      EmailIndexLastWins(init, i);
    }
  }

  /** The position of the last user with address `e`, or -1 when no user has it. */
  function LastWithEmail(users: seq<User>, e: string): (i: int)
    ensures -1 <= i < |users|
    ensures i >= 0 ==> users[i].email == Some(e)
    ensures forall j :: i < j < |users| ==> users[j].email != Some(e)
  {
    if users == [] then -1
    else if users[|users| - 1].email == Some(e) then |users| - 1
    else
      var init := users[..|users| - 1];
      assert forall j :: 0 <= j < |init| ==> init[j] == users[j];
      LastWithEmail(init, e)
  }

  /** Conversely, an address is indexed under the last user that has it. */
  lemma EmailIndexIsLast(users: seq<User>, e: string)
    requires e in EmailIndex(users)
    ensures LastWithEmail(users, e) >= 0 && EmailIndex(users)[e] == users[LastWithEmail(users, e)]
  {
    var k :| 0 <= k < |users| && HasEmail(users[k]) && users[k].email.value == e;
    var i := LastWithEmail(users, e);
    assert users[k].email == Some(e);
    assert i >= 0;
    EmailIndexLastWins(users, i);
  }

  /** `getSonarUserByEmail` as a value: the indexed user, or SonarUserNotFound. */
  function UserByEmail(finder: UserFinder, email: string): (r: Result<User>)
    ensures r.Ok? <==> email in EmailIndex(finder.all)
    ensures r.Ok? ==> r.value.email == Some(email) && r.value in finder.all
    ensures r.Ok? ==> r.value == EmailIndex(finder.all)[email]
    ensures r.Err? ==> r.error == SonarUserNotFound
  {
    match Get(EmailIndex(finder.all), email)
    case None => Err(SonarUserNotFound)
    case Some(user) => Ok(user)
  }

  /** `getSonarUser` as a value. */
  function SonarUserFor(finder: UserFinder, userName: string): (r: Result<User>)
    ensures userName in finder.byLogin ==> r == Ok(finder.byLogin[userName])
    ensures r.Err? ==> r.error == SonarUserNotFound
    ensures userName !in finder.byLogin && !IsEmailAddress(userName) ==> r == Err(SonarUserNotFound)
    ensures userName !in finder.byLogin && IsEmailAddress(userName) && HasEmbeddedEmailAddress(userName) ==>
      ExtractEmail(userName).Ok? && r == UserByEmail(finder, ExtractEmail(userName).value)
    ensures userName !in finder.byLogin && IsEmailAddress(userName) && !HasEmbeddedEmailAddress(userName) ==>
      r == UserByEmail(finder, userName)
  {
    if userName in finder.byLogin then Ok(finder.byLogin[userName])
    else if !IsEmailAddress(userName) then Err(SonarUserNotFound)
    else if HasEmbeddedEmailAddress(userName) then
      EmbeddedExtractionSucceeds(userName);
      UserByEmail(finder, ExtractEmail(userName).value)
    else UserByEmail(finder, userName)
  }

  /** A name with an embedded address is looked up by the text between its first '<' and
      the next '>': a name not known as a login that embeds an address after a prefix
      without '<' is looked up by that address. */
  lemma EmailNameLookup(finder: UserFinder, prefix: string, email: string, suffix: string)
    requires '<' !in prefix && '>' !in email
    requires HasEmbeddedEmailAddress(prefix + "<" + email + ">" + suffix)
    ensures var name := prefix + "<" + email + ">" + suffix;
      name !in finder.byLogin ==> SonarUserFor(finder, name) == UserByEmail(finder, email)
  {
    var name := prefix + "<" + email + ">" + suffix;
    ExtractEmbedded(prefix, email, suffix);
    var i, j, k :| EmbeddedAt(name, i, j, k);
    assert name[j] == '@';
    assert IsEmailAddress(name);
  }

  /** Every name with an embedded address has the shape `EmailNameLookup` covers: the part
      before its first '<', then '<', the extracted address, '>' and the rest. */
  lemma EmbeddedNameShape(name: string)
    requires HasEmbeddedEmailAddress(name)
    ensures ExtractEmail(name).Ok? && 0 <= IndexOfChar(name, '<')
    ensures IndexOfChar(name, '<') + 2 + |ExtractEmail(name).value| <= |name|
    ensures '<' !in name[..IndexOfChar(name, '<')] && '>' !in ExtractEmail(name).value
    ensures name == name[..IndexOfChar(name, '<')] + "<" + ExtractEmail(name).value + ">"
                    + name[IndexOfChar(name, '<') + 2 + |ExtractEmail(name).value|..]
  {
    EmbeddedExtractionSucceeds(name);
    var i, j, k :| EmbeddedAt(name, i, j, k);
    assert '<' in name by { assert name[i] == '<'; }
    ExtractedShape(name);
  }

  /** The extraction's pieces put back together give the name. */
  lemma ExtractedShape(name: string)
    requires '<' in name && ExtractEmail(name).Ok?
    ensures 0 <= IndexOfChar(name, '<')
    ensures IndexOfChar(name, '<') + 2 + |ExtractEmail(name).value| <= |name|
    ensures name == name[..IndexOfChar(name, '<')] + "<" + ExtractEmail(name).value + ">"
                    + name[IndexOfChar(name, '<') + 2 + |ExtractEmail(name).value|..]
  {
    var i0 := IndexOfChar(name, '<');
    var tail := name[i0 + 1..];
    var email := ExtractEmail(name).value;
    assert email == tail[..|email|] && tail[|email|] == '>';
    assert email == name[i0 + 1..i0 + 1 + |email|] && name[i0 + 1 + |email|] == '>';
    BracketSplit(name, i0, email);
  }

  /** A name with `between` enclosed by '<' at `i` and a '>' is the part before, '<', `between`,
      '>' and the rest. */
  lemma BracketSplit(name: string, i: nat, between: string)
    requires i + 1 + |between| < |name| && name[i] == '<' && name[i + 1 + |between|] == '>'
    requires between == name[i + 1..i + 1 + |between|]
    ensures name == name[..i] + "<" + between + ">" + name[i + 2 + |between|..]
  {
    var e := |between|;
    var before, rest := name[..i], name[i + 1..];
    var after := rest[e + 1..];
    assert between == rest[..e] && after == name[i + 2 + e..];
    assert [name[i]] == "<" && [rest[e]] == ">";
    Reassemble(name, i);
    Reassemble(rest, e);
    assert name == before + "<" + (between + ">" + after);
    AppendAssoc(before + "<", between + ">", after);
    AppendAssoc(before + "<", between, ">");
  }

  /** A plain e-mail name (no embedded address) is looked up as it is. */
  lemma PlainEmailLookup(finder: UserFinder, userName: string)
    requires userName !in finder.byLogin && IsEmailAddress(userName)
    requires !HasEmbeddedEmailAddress(userName)
    ensures SonarUserFor(finder, userName) == UserByEmail(finder, userName)
  {
  }

  /** The user lookup with the lazily built e-mail map. */
  class Users {
    const userFinder: UserFinder
    var emailToUserMap: Option<map<string, User>>

    /** The e-mail map, once built, is the index of all host users. */
    ghost predicate Valid()
      reads this
    {
      emailToUserMap.Some? ==> emailToUserMap.value == EmailIndex(userFinder.all)
    }

    constructor (userFinder: UserFinder)
      ensures Valid() && this.userFinder == userFinder && emailToUserMap.None?
    {
      this.userFinder := userFinder;
      emailToUserMap := None;
    }

    /** `initialiseUserMap`: puts every user with a non-empty e-mail, in order. */
    method InitialiseUserMap()
      modifies this
      ensures emailToUserMap == Some(EmailIndex(userFinder.all))
    {
      var sonarUsers := userFinder.all;
      var index: map<string, User> := map[];
      for i := 0 to |sonarUsers|
        invariant index == EmailIndex(sonarUsers[..i])
      {
        var user := sonarUsers[i];
        EmailIndexSnoc(sonarUsers, i);
        if user.email.Some? && user.email.value != "" {
          index := index[user.email.value := user];
        }
      }
      assert sonarUsers[..|sonarUsers|] == sonarUsers;
      emailToUserMap := Some(index);
    }

    /** `getSonarUserByEmail`: builds the map on first use, then looks the address up. */
    method GetSonarUserByEmail(email: string) returns (r: Result<User>)
      requires Valid()
      modifies this
      ensures Valid() && emailToUserMap.Some?
      ensures old(emailToUserMap).Some? ==> emailToUserMap == old(emailToUserMap)
      ensures r == UserByEmail(userFinder, email)
    {
      if emailToUserMap.None? {
        InitialiseUserMap();
      }
      var user := Get(emailToUserMap.value, email);
      if user.None? {
        return Err(SonarUserNotFound);
      }
      return Ok(user.value);
    }

    /** `getSonarUser`. */
    method GetSonarUser(userName: string) returns (r: Result<User>)
      requires Valid()
      modifies this
      ensures Valid()
      ensures old(emailToUserMap).Some? ==> emailToUserMap == old(emailToUserMap)
      ensures r == SonarUserFor(userFinder, userName)
    {
      var sonarUser := Get(userFinder.byLogin, userName);
      if sonarUser.None? {
        if IsEmailAddress(userName) {
          var emailAddress;
          if HasEmbeddedEmailAddress(userName) {
            EmbeddedExtractionSucceeds(userName);
            emailAddress := ExtractEmail(userName).value;
          } else {
            emailAddress := userName;
          }
          r := GetSonarUserByEmail(emailAddress);
          return;
        }
        return Err(SonarUserNotFound);
      }
      return Ok(sonarUser.value);
    }
  }
}
