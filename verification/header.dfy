/** The top bar: the signed-in user's display name and avatar letter, and
    the notification bell. */
module Header {
  import opened Wrappers
  import Text

  /** The fields of the auth user the bar reads. */
  datatype User = User(fullName: Option<string>, email: Option<string>)

  /** A dashboard alert. */
  datatype Notification = Notification(title: string, message: string)

  /** `email.split('@')[0]`: the text before the first `@`. */
  function EmailName(email: string): (r: string)
    ensures '@' !in r
    ensures |r| <= |email| && r == email[..|r|]
    ensures |r| < |email| ==> email[|r|] == '@'
  {
    var pieces := Text.Split(email, '@');
    EmailNameIsPrefix(email, 0);
    pieces[0]
  }

  /** The first piece is the longest prefix of `email` without an `@`. */
  lemma {:induction false} EmailNameIsPrefix(email: string, i: nat)
    requires i <= |email| && '@' !in email[..i]
    ensures var r := Text.Split(email, '@')[0];
            |r| <= |email| && r == email[..|r|] && (|r| < |email| ==> email[|r|] == '@')
    decreases |email| - i
  {
    if i == |email| || email[i] == '@' {
      Text.SplitHead(email, '@', i);
    } else {
      assert email[..i + 1] == email[..i] + [email[i]];
      EmailNameIsPrefix(email, i + 1);
    }
  }

  /** `full_name || email.split('@')[0] || 'User'`, with a missing user,
      metadata or email read as undefined. */
  function UserName(user: Option<User>): (r: string)
    ensures r != ""
    ensures user.Some? && TruthyText(user.value.fullName) ==> r == user.value.fullName.value
    ensures user.None? ==> r == "User"
  {
    if user.Some? && TruthyText(user.value.fullName) then user.value.fullName.value
    else if user.Some? && user.value.email.Some? && EmailName(user.value.email.value) != "" then EmailName(user.value.email.value)
    else "User"
  }

  /** Without a full name, the name is the email's local part, or `User`
      exactly when that part is empty or there is no email. */
  lemma UserNameFromEmail(user: User)
    requires !TruthyText(user.fullName)
    ensures user.email.Some? && EmailName(user.email.value) != "" ==> UserName(Some(user)) == EmailName(user.email.value)
    ensures UserName(Some(user)) == "User" <==> user.email.None? || EmailName(user.email.value) in {"", "User"}
  {
  }

  /** An email that starts with `@` gives the fallback name. */
  lemma LeadingAtFallsBack(fullName: Option<string>, email: string)
    requires !TruthyText(fullName)
    requires email != [] && email[0] == '@'
    ensures UserName(Some(User(fullName, Some(email)))) == "User"
  {
    assert EmailName(email) == [];
  }

  /** The avatar shows the name's first character. */
  function AvatarLetter(user: Option<User>): (c: char)
    ensures c in UserName(user)
    ensures c == UserName(user)[0]
    ensures user.Some? && TruthyText(user.value.fullName) ==> c == user.value.fullName.value[0]
    ensures user.None? ==> c == 'U'
  {
    UserName(user)[0]
  }

  /** The bell is highlighted and carries the dot exactly when there are
      notifications. */
  predicate BellHighlighted(notifications: seq<Notification>) {
    |notifications| > 0
  }

  /** "No new alerts" replaces the list exactly when there are none. */
  predicate ShowsNoAlerts(notifications: seq<Notification>) {
    |notifications| == 0
  }

  lemma BellOrNoAlerts(notifications: seq<Notification>)
    ensures BellHighlighted(notifications) != ShowsNoAlerts(notifications)
    ensures ShowsNoAlerts(notifications) <==> notifications == []
  {
  }
}
