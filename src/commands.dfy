/** `ChatCommandEvent.CommandType` and `ExecutionPhase`: command classification by alias. */
module Commands {
  import opened Text
  import Search

  datatype CommandType =
    | ChannelSwitch | PrivateMessage | Reply | Broadcast | SocialSpy | LocalSpy
    | OptOutMessage | ChannelShortcut | Other

  /** `CommandType.values()`, in declaration order. */
  const AllCommandTypes: seq<CommandType> :=
    [ChannelSwitch, PrivateMessage, Reply, Broadcast, SocialSpy, LocalSpy,
     OptOutMessage, ChannelShortcut, Other]

  function CommandOrdinal(t: CommandType): (i: nat)
    ensures i < |AllCommandTypes| && AllCommandTypes[i] == t
  {
    match t
    case ChannelSwitch => 0 case PrivateMessage => 1 case Reply => 2 case Broadcast => 3
    case SocialSpy => 4 case LocalSpy => 5 case OptOutMessage => 6 case ChannelShortcut => 7
    case Other => 8
  }

  function Aliases(t: CommandType): seq<string>
  {
    match t
    case ChannelSwitch => ["/channel", "/c"]
    case PrivateMessage => ["/msg", "/tell", "/whisper", "/w", "/m", "/pm"]
    case Reply => ["/reply", "/r"]
    case Broadcast => ["/broadcast", "/alert"]
    case SocialSpy => ["/socialspy", "/ss"]
    case LocalSpy => ["/localspy", "/ls"]
    case OptOutMessage => ["/optoutmsg"]
    case ChannelShortcut => ["shortcut"]
    case Other => ["other"]
  }

  datatype ExecutionPhase = Pre | Post

  /** `getAliases`: a fresh array holding the aliases, so a caller's writes never reach the table. */
  method GetAliases(t: CommandType) returns (a: array<string>)
    ensures fresh(a) && a[..] == Aliases(t)
  {
    a := new string[|Aliases(t)|](i requires 0 <= i < |Aliases(t)| => Aliases(t)[i]);
  }

  /** The lower-cased command with a leading "/" added when it has none. */
  function Normalize(command: string): (n: string)
    ensures StartsWith(n, "/")
  {
    var lower := Lower(command);
    if StartsWith(lower, "/") then lower else "/" + lower
  }

  lemma NoAliasMatchInValuesMeansNoMatch(n: string)
    requires forall j :: 0 <= j < |AllCommandTypes| ==> n !in Aliases(AllCommandTypes[j])
    ensures forall t :: n !in Aliases(t)
  {
    forall t ensures n !in Aliases(t) {
      assert AllCommandTypes[CommandOrdinal(t)] == t;
    }
  }

  /**
   * `fromCommand`: the first type, in declaration order, one of whose aliases equals the
   * normalised command; OTHER when none does.
   */
  function FromCommand(command: string): (r: CommandType)
    ensures Normalize(command) in Aliases(r)
      || (r == Other && forall t :: Normalize(command) !in Aliases(t))
  {
    var n := Normalize(command);
    match Search.FirstIndex(AllCommandTypes, (t: CommandType) => n in Aliases(t))
    case Some(i) => AllCommandTypes[i]
    case None =>
      NoAliasMatchInValuesMeansNoMatch(n);
      Other
  }

  /** No string is an alias of two types. */
  lemma AliasesDisjoint(a: CommandType, b: CommandType, s: string)
    requires s in Aliases(a) && s in Aliases(b)
    ensures a == b
  {
  }

  /** Case does not matter: a command and its lower-cased form classify alike. */
  lemma {:induction false} FromCommandCaseInsensitive(command: string)
    ensures FromCommand(command) == FromCommand(Lower(command))
  {
    LowerIdempotent(command);
    assert Normalize(command) == Normalize(Lower(command));
  }

  /** The leading slash is optional: "x" and "/x" classify alike. */
  lemma {:induction false} FromCommandSlashOptional(command: string)
    requires command == [] || command[0] != '/'
    ensures FromCommand(command) == FromCommand("/" + command)
  {
    LowerAppend("/", command);
    assert Lower("/") == "/";
    assert !StartsWith(Lower(command), "/");
    assert Normalize("/" + command) == "/" + Lower(command);
  }

  /** Every slash-prefixed alias classifies as the type that lists it. */
  lemma {:induction false} FromCommandFindsAlias(t: CommandType, alias: string)
    requires alias in Aliases(t) && StartsWith(alias, "/")
    ensures FromCommand(alias) == t
  {
    AliasIsLowerCase(t, alias);
    assert Normalize(alias) == alias;
    AliasesDisjoint(FromCommand(alias), t, alias);
  }

  lemma AliasIsLowerCase(t: CommandType, alias: string)
    requires alias in Aliases(t)
    ensures Lower(alias) == alias
  {
    assert forall i :: 0 <= i < |alias| ==> 'a' <= alias[i] <= 'z' || alias[i] == '/';
    LowerOfLowercase(alias);
  }

  /** CHANNEL_SHORTCUT is never the answer: its one alias has no slash, and a normalised command always has one. */
  lemma {:induction false} FromCommandNeverShortcut(command: string)
    ensures FromCommand(command) != ChannelShortcut
  {
    var n := Normalize(command);
    assert n[0] == '/';
    assert "shortcut"[0] != '/';
  }
}
