/** The two pieces of text formatting the bot relies on: `%d` of a natural number
    and the jump link built with fmt.Sprintf at main.go line 184. */
module Text {

  function DigitChar(d: nat): (c: char)
    requires d < 10
    ensures '0' <= c <= '9' && (c as int) - ('0' as int) == d
  {
    (('0' as int) + d) as char
  }

  predicate IsDigits(s: string) {
    forall i :: 0 <= i < |s| ==> '0' <= s[i] <= '9'
  }

  /** Decimal rendering of n, as `%d` prints it: no sign, no leading zeros. */
  function Decimal(n: nat): (s: string)
    ensures |s| > 0 && IsDigits(s)
    ensures |s| > 1 ==> s[0] != '0'
  {
    if n < 10 then [DigitChar(n)] else Decimal(n / 10) + [DigitChar(n % 10)]
  }

  /** The value of a string of decimal digits (an independent reading of Decimal). */
  function DecimalValue(s: string): nat
    requires IsDigits(s)
  {
    if |s| == 0 then 0
    else DecimalValue(s[..|s| - 1]) * 10 + ((s[|s| - 1] as int) - ('0' as int))
  }

  /** Reading back what Decimal prints gives the number again, so distinct
      attachment positions get distinct labels. */
  lemma {:induction false} DecimalRoundTrip(n: nat)
    ensures DecimalValue(Decimal(n)) == n
  {
    if n >= 10 {
      var s := Decimal(n);
      DecimalRoundTrip(n / 10);
      assert s[..|s| - 1] == Decimal(n / 10);
    }
  }

  lemma DecimalInjective(m: nat, n: nat)
    requires Decimal(m) == Decimal(n)
    ensures m == n
  {
    DecimalRoundTrip(m);
    DecimalRoundTrip(n);
  }

  const LinkPrefix: string := "https://discord.com/channels/"

  /** fmt.Sprintf("https://discord.com/channels/%s/%s/%s", guild, channel, message). */
  function MessageLink(guildId: string, channelId: string, messageId: string): string {
    LinkPrefix + guildId + "/" + channelId + "/" + messageId
  }

  /** The link starts with the fixed prefix and lists guild, channel and message
      in that order, each after one slash. */
  lemma MessageLinkShape(guildId: string, channelId: string, messageId: string)
    ensures var link := MessageLink(guildId, channelId, messageId);
      var g := |LinkPrefix| + |guildId|;
      var c := g + 1 + |channelId|;
      && |link| == c + 1 + |messageId|
      && link[..|LinkPrefix|] == LinkPrefix
      && link[|LinkPrefix|..g] == guildId && link[g] == '/'
      && link[g + 1..c] == channelId && link[c] == '/'
      && link[c + 1..] == messageId
  {
  }

  lemma SlashesOf(a: string, b: string)
    requires '/' !in a
    ensures (a + "/" + b)[|a|] == '/'
    ensures forall i :: 0 <= i < |a| ==> (a + "/" + b)[i] != '/'
    ensures (a + "/" + b)[..|a|] == a && (a + "/" + b)[|a| + 1..] == b
  {
  }

  lemma SplitAtFirstSlash(a: string, b: string, a': string, b': string)
    requires '/' !in a && '/' !in a'
    requires a + "/" + b == a' + "/" + b'
    ensures a == a' && b == b'
  {
    SlashesOf(a, b);
    SlashesOf(a', b');
    assert |a| == |a'|;
  }

  /** Snowflakes are digit strings, so they never contain '/'; for such ids the
      link names exactly one (guild, channel, message) triple. */
  lemma MessageLinkInjective(g: string, c: string, m: string, g': string, c': string, m': string)
    requires '/' !in g && '/' !in c && '/' !in g' && '/' !in c'
    requires MessageLink(g, c, m) == MessageLink(g', c', m')
    ensures g == g' && c == c' && m == m'
  {
    var rest := g + "/" + c + "/" + m;
    var rest' := g' + "/" + c' + "/" + m';
    assert MessageLink(g, c, m) == LinkPrefix + rest;
    assert MessageLink(g', c', m') == LinkPrefix + rest';
    assert rest == (LinkPrefix + rest)[|LinkPrefix|..];
    assert rest' == (LinkPrefix + rest')[|LinkPrefix|..];
    assert rest == g + "/" + (c + "/" + m);
    assert rest' == g' + "/" + (c' + "/" + m');
    SplitAtFirstSlash(g, c + "/" + m, g', c' + "/" + m');
    SplitAtFirstSlash(c, m, c', m');
  }
}
