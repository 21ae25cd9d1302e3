/** Process configuration and the validation done by `LoadEnvVars`. */
module Config {
  import opened Wrappers
  import Strings

  /** The settings the modelled code reads, with their environment-variable defaults
      in `Default`. */
  datatype Config = Config(
    listenAddress: string,
    namespace: string,
    clusterName: string,
    notificationLevel: string,
    mentionLabel: string,
    mentionDefault: string,
    notifyLog: bool,
    notifySlack: bool,
    notifySlackToken: string,
    notifySlackAsUser: bool,
    notifySlackChannel: string)

  const Default: Config := Config(":8080", "default", "local", "DEBUG", "", "here", true, false, "", false, "")

  const InvalidListenAddress: string := "invalid 'KIT_OVERWATCH_LISTEN_ADDRESS'"

  /** RE2's `\s`: tab, newline, form feed, carriage return and space. */
  predicate IsSpace(c: char) {
    c == '\t' || c == '\n' || c as int == 12 || c == '\r' || c == ' '
  }

  predicate NoSpace(s: string) {
    forall i :: 0 <= i < |s| ==> !IsSpace(s[i])
  }

  /** The regular expression `^(?:[^\s]+)?:\d+$` read declaratively: the text splits at
      some colon into a (possibly empty) whitespace-free host part and a non-empty run
      of ASCII digits. */
  ghost predicate MatchesListenPattern(s: string) {
    exists i :: 0 <= i < |s| && SplitsAt(s, i)
  }

  /** `s[i]` is the colon separating a whitespace-free host from a non-empty port. */
  predicate SplitsAt(s: string, i: int)
    requires 0 <= i < |s|
  {
    s[i] == ':' && NoSpace(s[..i]) && |s| - i >= 2 && Strings.AllDigits(s[i + 1..])
  }

  /** The index of the last occurrence of `c` in `s`, if any. */
  function LastIndexOf(s: string, c: char): (r: Option<nat>)
    ensures r.None? <==> c !in s
    ensures r.Some? ==> r.value < |s| && s[r.value] == c && c !in s[r.value + 1..]
    decreases |s|
  {
    if |s| == 0 then None
    else if s[|s| - 1] == c then Some(|s| - 1)
    else
      var r := LastIndexOf(s[..|s| - 1], c);
      assert s[..|s| - 1] + [s[|s| - 1]] == s;
      if r.Some? then assert s[r.value + 1..] == s[..|s| - 1][r.value + 1..] + [s[|s| - 1]]; r else r
  }

  /** The executable listen-address check: the text splits at its last colon into a
      whitespace-free host and a non-empty run of digits. */
  function ValidListenAddress(s: string): bool {
    var last := LastIndexOf(s, ':');
    last.Some? && SplitsAt(s, last.value)
  }

  /** The executable check accepts exactly the texts the regular expression matches:
      the colon the pattern needs can only be the last colon, because the digits after
      it contain none. */
  lemma ValidListenAddressMatchesPattern(s: string)
    ensures ValidListenAddress(s) <==> MatchesListenPattern(s)
  {
    var last := LastIndexOf(s, ':');
    if MatchesListenPattern(s) {
      var i :| 0 <= i < |s| && SplitsAt(s, i);
      assert s[i + 1..][|s| - i - 2] == s[|s| - 1];
      assert last.Some?;
      assert i == last.value;
    }
  }

  /** The same acceptance stated the way an operator would: no whitespace anywhere, a
      colon present, and a non-empty run of digits after the last colon. */
  lemma ListenAddressRule(s: string)
    ensures ValidListenAddress(s) <==>
      NoSpace(s) && ':' in s && LastIndexOf(s, ':').value < |s| - 1
      && Strings.AllDigits(s[LastIndexOf(s, ':').value + 1..])
  {
    var last := LastIndexOf(s, ':');
    if last.Some? {
      var i := last.value;
      assert ':' in s;
      NoSpaceAroundColon(s, i);
      if Strings.AllDigits(s[i + 1..]) {
        DigitsHaveNoSpace(s[i + 1..]);
      }
    }
  }

  /** Whitespace-freedom of a text is that of the parts around one of its colons. */
  lemma NoSpaceAroundColon(s: string, i: nat)
    requires i < |s| && s[i] == ':'
    ensures NoSpace(s) <==> NoSpace(s[..i]) && NoSpace(s[i + 1..])
  {
    if NoSpace(s[..i]) && NoSpace(s[i + 1..]) {
      forall k | 0 <= k < |s| ensures !IsSpace(s[k]) {
        if k < i {
          assert s[k] == s[..i][k];
        } else if k > i {
          assert s[k] == s[i + 1..][k - i - 1];
        }
      }
    }
  }

  lemma DigitsHaveNoSpace(s: string)
    requires Strings.AllDigits(s)
    ensures NoSpace(s)
  {
    assert forall i :: 0 <= i < |s| ==> Strings.IsDigit(s[i]);
  }

  /** The error messages `LoadEnvVars` collects, in order. `regexError` is what
      `regexp.MatchString` reports about the pattern; the pattern is a valid constant,
      so that is `None` whenever the program runs. */
  function ListenAddressErrors(address: string, regexError: Option<string>): (errors: seq<string>)
    ensures |errors| <= 2
    ensures InvalidListenAddress in errors <==> regexError.Some? || !ValidListenAddress(address)
    ensures regexError.Some? <==> |errors| == 2
    ensures errors == [] <==> regexError.None? && ValidListenAddress(address)
    ensures regexError.Some? ==>
      errors == ["error parsing 'KIT_OVERWATCH_LISTEN_ADDRESS': " + regexError.value, InvalidListenAddress]
  {
    var matched := regexError.None? && ValidListenAddress(address);
    (if regexError.Some? then ["error parsing 'KIT_OVERWATCH_LISTEN_ADDRESS': " + regexError.value] else [])
    + (if !matched then [InvalidListenAddress] else [])
  }

  /** `LoadEnvVars`: an environment-parsing failure is reported on its own; otherwise the
      collected messages are joined with "; ", and success means none were collected. */
  function LoadEnvVars(address: string, envError: Option<string>, regexError: Option<string>): (r: Result<(), string>)
    ensures r.Success? <==> envError.None? && regexError.None? && ValidListenAddress(address)
    ensures envError.Some? ==> r == Failure("Unable to fetch env vars: " + envError.value)
    ensures envError.None? && regexError.None? && !ValidListenAddress(address) ==> r == Failure(InvalidListenAddress)
  {
    if envError.Some? then Failure("Unable to fetch env vars: " + envError.value)
    else
      var errors := ListenAddressErrors(address, regexError);
      if |errors| != 0 then Failure(Strings.Join(errors, "; ")) else Success(())
  }

  /** The default listen address ":8080" is accepted. */
  lemma DefaultListenAddressAccepted()
    ensures ValidListenAddress(Default.listenAddress)
  {
    assert SplitsAt(Default.listenAddress, 0);
  }

  /** "testing" has no colon, so loading fails and names the variable. */
  lemma RejectsTesting()
    ensures var r := LoadEnvVars("testing", None, None);
            r.Failure? && Strings.Contains(r.error, InvalidListenAddress)
  {
    assert ':' !in "testing";
    assert Strings.OccursAt(InvalidListenAddress, InvalidListenAddress, 0);
  }
}
