/**
  The command each SQL node receives at the end of the run: it creates the
  configured MySQL user, reachable from any host, with the configured
  password, and grants it every privilege. `ParseAddUserCommand` reads the
  user and password back out of the text.
*/
module Credentials {
  import opened Wrappers
  import opened Text

  const CreateUserPrefix: string := "\nmysql -e \"CREATE USER '"
  const IdentifiedBy: string := "'" + "@'%' IDENTIFIED BY '"
  const GrantPrefix: string := "'" + "\";\nmysql -e \"GRANT ALL PRIVILEGES ON *.* TO '"
  const GrantSuffix: string := "'" + "@'%' WITH GRANT OPTION\";\n"

  /** The two `mysql -e` lines: CREATE USER with the password, then GRANT to the same user. */
  function AddUserCommand(user: string, password: string): string {
    CreateUserPrefix + (user + (IdentifiedBy + (password + (GrantPrefix + (user + GrantSuffix)))))
  }

  /**
    The user and password a command of that form names; the user must be the
    same in both lines.
  */
  function ParseAddUserCommand(command: string): (r: Option<(string, string)>)
    ensures r.Some? ==> '\'' !in r.value.0 && '\'' !in r.value.1
  {
    var afterCreate :- StripPrefix(command, CreateUserPrefix);
    var user :- SplitAt(afterCreate, '\'');
    var atPassword :- StripPrefix(user.1, IdentifiedBy);
    var password :- SplitAt(atPassword, '\'');
    var atGrantee :- StripPrefix(password.1, GrantPrefix);
    var grantee :- SplitAt(atGrantee, '\'');
    if grantee.0 == user.0 && grantee.1 == GrantSuffix then Some((user.0, password.0)) else None
  }

  /**
    For a user and password without single quotes, the command names exactly
    that user in both lines and that password in CREATE USER.
  */
  lemma AddUserCommandRoundTrip(user: string, password: string)
    requires '\'' !in user && '\'' !in password
    ensures ParseAddUserCommand(AddUserCommand(user, password)) == Some((user, password))
  {
    var grantTail := user + GrantSuffix;
    var passwordTail := password + (GrantPrefix + grantTail);
    var userTail := user + (IdentifiedBy + passwordTail);
    assert StripPrefix(AddUserCommand(user, password), CreateUserPrefix) == Some(userTail);
    assert IdentifiedBy[0] == '\'' && GrantPrefix[0] == '\'' && GrantSuffix[0] == '\'';
    SplitAtConcat(user, IdentifiedBy + passwordTail, '\'');
    assert StripPrefix(IdentifiedBy + passwordTail, IdentifiedBy) == Some(passwordTail);
    SplitAtConcat(password, GrantPrefix + grantTail, '\'');
    assert StripPrefix(GrantPrefix + grantTail, GrantPrefix) == Some(grantTail);
    SplitAtConcat(user, GrantSuffix, '\'');
  }

  /**
    The user and password literals of the CREATE USER line, each read up to
    the next single quote. This is how MySQL delimits them as long as the
    text holds no doubled or backslash-escaped quote, and the shell passes
    them through unchanged as long as they hold no character that is special
    inside its double quotes (see `PlainLiteral`).
  */
  function CreateUserLiterals(command: string): (r: Option<(string, string)>)
    ensures r.Some? ==> '\'' !in r.value.0 && '\'' !in r.value.1
  {
    var afterCreate :- StripPrefix(command, CreateUserPrefix);
    var user :- SplitAt(afterCreate, '\'');
    var atPassword :- StripPrefix(user.1, IdentifiedBy);
    var password :- SplitAt(atPassword, '\'');
    Some((user.0, password.0))
  }

  /**
    Text that the shell's double quotes pass through unchanged and that holds
    no quote or backslash MySQL would read inside a literal.
  */
  predicate PlainLiteral(s: string) {
    '\'' !in s && '\\' !in s && '"' !in s && '$' !in s && '`' !in s
  }

  /**
    Quotes are not escaped: for a password `p1 + "'" + p2`, where `p1` and the
    user are plain and `p2` does not start with a second quote (which MySQL
    would read as an escaped quote), the password literal of the CREATE USER
    line ends at that quote, so MySQL receives the password literal `p1`.
  */
  lemma PasswordLiteralEndsAtQuote(user: string, p1: string, p2: string)
    requires PlainLiteral(user) && PlainLiteral(p1)
    requires |p2| > 0 && p2[0] != '\''
    ensures CreateUserLiterals(AddUserCommand(user, p1 + "'" + p2)) == Some((user, p1))
  {
    var quoted := "'" + p2;
    var password := p1 + quoted;
    assert p1 + "'" + p2 == password;
    var passwordTail := password + (GrantPrefix + (user + GrantSuffix));
    var userTail := user + (IdentifiedBy + passwordTail);
    assert StripPrefix(AddUserCommand(user, password), CreateUserPrefix) == Some(userTail);
    assert IdentifiedBy[0] == '\'';
    SplitAtConcat(user, IdentifiedBy + passwordTail, '\'');
    assert StripPrefix(IdentifiedBy + passwordTail, IdentifiedBy) == Some(passwordTail);
    var rest := quoted + (GrantPrefix + (user + GrantSuffix));
    ConcatAssociative(p1, quoted, GrantPrefix + (user + GrantSuffix));
    assert rest[0] == '\'';
    SplitAtConcat(p1, rest, '\'');
  }

  /**
    With quotes allowed in the user name the command does not determine the
    credentials: two different user/password pairs render the same text.
  */
  lemma QuotedUserCollides()
    ensures var first := ("", GrantPrefix + IdentifiedBy + GrantPrefix + IdentifiedBy);
            var second := (IdentifiedBy + GrantPrefix, "");
            first != second && AddUserCommand(first.0, first.1) == AddUserCommand(second.0, second.1)
  {
    assert IdentifiedBy[0] == '\'';
    CollisionShape(CreateUserPrefix, IdentifiedBy, GrantPrefix, GrantSuffix);
  }

  lemma ConcatAssociative(a: string, b: string, c: string)
    ensures (a + b) + c == a + (b + c)
  {
  }

  /** Both renderings of the collision are the same run of the four fixed pieces. */
  lemma CollisionShape(c: string, i: string, g: string, s: string)
    ensures c + ("" + (i + ((g + i + g + i) + (g + ("" + s)))))
         == c + ((i + g) + (i + ("" + (g + ((i + g) + s)))))
  {
    var whole := c + i + g + i + g + i + g + s;
    assert c + ("" + (i + ((g + i + g + i) + (g + ("" + s))))) == whole;
    assert c + ((i + g) + (i + ("" + (g + ((i + g) + s))))) == whole;
  }
}
