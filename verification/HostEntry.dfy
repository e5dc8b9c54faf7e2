/** SSH host entries and the text they may hold (subsystems/ssh/config.go, wire.go). */
module HostEntry {
  import opened Text

  datatype Host = Host(name: string, hostname: string, user: string, port: int, key: string, directives: seq<string>)

  predicate ValidAlias(s: string) { SafeName(s, 128) }

  predicate ValueChar(c: char) { IsLetter(c) || IsDigit(c) || c in "_@%:./+=,~-" }

  predicate ValueText(s: string) { 1 <= |s| <= 256 && forall i :: 0 <= i < |s| ==> ValueChar(s[i]) }

  function DirectiveText(key: string, setting: string): string { key + [' '] + setting }

  /** A directive sets one of the options to a plain value. */
  predicate Sets(options: seq<string>, d: string) {
    exists i :: 0 <= i < |options| && options[i] + [' '] <= d && ValueText(d[|options[i]| + 1..])
  }

  /** What every stored entry satisfies, given the options a command may set. */
  predicate WellFormed(options: seq<string>, h: Host) {
    && ValidAlias(h.name) && ValueText(h.hostname) && (h.user == "" || ValueText(h.user)) && 1 <= h.port <= 65535
    && forall i :: 0 <= i < |h.directives| ==> Sets(options, h.directives[i])
  }

  function Decimal(n: nat): string {
    if n < 10 then [('0' as int + n) as char] else Decimal(n / 10) + [('0' as int + n % 10) as char]
  }

  lemma {:induction false} DecimalIsPlain(n: nat)
    ensures '\n' !in Decimal(n) && Blankless(Decimal(n)) && Decimal(n) != ""
  {
    if n >= 10 { DecimalIsPlain(n / 10); }
  }

  lemma DirectiveSets(options: seq<string>, key: string, setting: string)
    requires key in options && ValueText(setting)
    ensures Sets(options, DirectiveText(key, setting))
  {
    var i :| 0 <= i < |options| && options[i] == key;
    assert DirectiveText(key, setting)[|options[i]| + 1..] == setting;
    assert options[i] + [' '] <= DirectiveText(key, setting);
  }

  lemma SetsMeans(options: seq<string>, d: string) returns (key: string, setting: string)
    requires Sets(options, d)
    ensures key in options && ValueText(setting) && d == DirectiveText(key, setting)
  {
    var i :| 0 <= i < |options| && options[i] + [' '] <= d && ValueText(d[|options[i]| + 1..]);
    key, setting := options[i], d[|options[i]| + 1..];
    assert d == (key + [' ']) + setting;
  }

  lemma ValueIsBlankless(v: string)
    requires ValueText(v)
    ensures v != "" && Blankless(v) && '\n' !in v
  {
    forall i | 0 <= i < |v| ensures !IsSpace(v[i]) && v[i] != '\n' { assert ValueChar(v[i]); }
  }

  // ----- the options

  /** The canonical spelling of every directive a command may set. */
  const OPTIONS: seq<string> := [
    "ProxyJump", "StrictHostKeyChecking", "UserKnownHostsFile", "IdentitiesOnly", "ForwardAgent", "ServerAliveInterval",
    "ServerAliveCountMax", "PreferredAuthentications", "PubkeyAuthentication", "PubkeyAcceptedAlgorithms",
    "HostKeyAlgorithms", "KexAlgorithms", "Ciphers", "MACs", "AddKeysToAgent", "Compression", "RequestTTY"]

  /** One word that is no spelling of `host`. */
  predicate PlainKey(k: string) { k != "" && Blankless(k) && Lower(k) != "host" }

  /** The jump option comes first, every name is one word, and names differ by more than case. */
  predicate Plain(options: seq<string>) {
    && options != [] && options[0] == "ProxyJump"
    && (forall i :: 0 <= i < |options| ==> PlainKey(Lower(options[i])) && PlainKey(options[i]) && '=' !in options[i])
    && (forall i, j :: 0 <= i < j < |options| ==> Lower(options[i]) != Lower(options[j]))
  }

  predicate Letters(s: string) { forall i :: 0 <= i < |s| ==> IsLetter(s[i]) }

  lemma LettersAreWords(s: string)
    requires Letters(s)
    ensures Blankless(s) && Blankless(Lower(s)) && '=' !in s
  {
  }

  lemma LettersArePlain(s: string)
    requires Letters(s) && s != "" && (|s| == 4 ==> s[0] !in "hH")
    ensures PlainKey(s) && PlainKey(Lower(s)) && '=' !in s
  {
    LettersAreWords(s);
    if |s| == 4 {
      assert Lower(s)[0] as int != 'h' as int;
      assert Lower(Lower(s))[0] == Lower(s)[0];
    }
  }

  const LENGTHS := [9, 21, 18, 14, 12, 19, 19, 24, 20, 24, 17, 13, 7, 4, 14, 11, 10]

  lemma OptionLengths(i: nat)
    requires i < |OPTIONS|
    ensures |LENGTHS| == |OPTIONS| == 17 && |OPTIONS[i]| == LENGTHS[i]
  {
  }

  lemma OptionsFrom0(i: nat)
    requires i < 3
    ensures |OPTIONS| == 17 && Letters(OPTIONS[i])
  {
    assert Letters("ProxyJump") && Letters("StrictHostKeyChecking") && Letters("UserKnownHostsFile");
  }

  lemma OptionsFrom3(i: nat)
    requires 3 <= i < 6
    ensures |OPTIONS| == 17 && Letters(OPTIONS[i])
  {
    assert Letters("IdentitiesOnly") && Letters("ForwardAgent") && Letters("ServerAliveInterval");
  }

  lemma OptionsFrom6(i: nat)
    requires 6 <= i < 8
    ensures |OPTIONS| == 17 && Letters(OPTIONS[i])
  {
    assert Letters("ServerAliveCountMax") && Letters("PreferredAuthentications");
  }

  lemma OptionsFrom8(i: nat)
    requires 8 <= i < 11
    ensures |OPTIONS| == 17 && Letters(OPTIONS[i])
  {
    assert Letters("PubkeyAuthentication") && Letters("PubkeyAcceptedAlgorithms") && Letters("HostKeyAlgorithms");
  }

  lemma OptionsFrom11(i: nat)
    requires 11 <= i < 17
    ensures |OPTIONS| == 17 && Letters(OPTIONS[i])
  {
    assert Letters("KexAlgorithms") && Letters("Ciphers") && Letters("MACs");
    assert Letters("AddKeysToAgent") && Letters("Compression") && Letters("RequestTTY");
  }

  lemma OptionIsPlain(i: nat)
    requires i < |OPTIONS|
    ensures PlainKey(Lower(OPTIONS[i])) && PlainKey(OPTIONS[i]) && '=' !in OPTIONS[i]
  {
    OptionLengths(i);
    if i < 3 {
      OptionsFrom0(i);
    } else if i < 6 {
      OptionsFrom3(i);
    } else if i < 8 {
      OptionsFrom6(i);
    } else if i < 11 {
      OptionsFrom8(i);
    } else {
      OptionsFrom11(i);
    }
    assert |OPTIONS[i]| == 4 ==> OPTIONS[i] == "MACs";
    LettersArePlain(OPTIONS[i]);
  }

  lemma LowerApart(a: string, b: string, k: nat)
    requires k < |a| && k < |b| && ToLower(a[k]) != ToLower(b[k])
    ensures Lower(a) != Lower(b)
  {
    assert Lower(a)[k] != Lower(b)[k];
  }

  lemma EqualLengths(i: nat, j: nat)
    requires i < j < |LENGTHS| && LENGTHS[i] == LENGTHS[j]
    ensures (i, j) == (3, 14) || (i, j) == (5, 6) || (i, j) == (7, 9)
  {
  }

  lemma SameLengthOptions()
    ensures |OPTIONS| == 17 && |OPTIONS[3]| == |OPTIONS[14]| == 14 && OPTIONS[3][0] == 'I' && OPTIONS[14][0] == 'A'
    ensures |OPTIONS[5]| == |OPTIONS[6]| == 19 && OPTIONS[5][11] == 'I' && OPTIONS[6][11] == 'C'
    ensures |OPTIONS[7]| == |OPTIONS[9]| == 24 && OPTIONS[7][1] == 'r' && OPTIONS[9][1] == 'u'
  {
  }

  lemma OptionsDiffer(i: nat, j: nat)
    requires i < j < |OPTIONS|
    ensures Lower(OPTIONS[i]) != Lower(OPTIONS[j])
  {
    OptionLengths(i);
    OptionLengths(j);
    if LENGTHS[i] == LENGTHS[j] {
      EqualLengths(i, j);
      SameLengthOptions();
      LowerApart(OPTIONS[i], OPTIONS[j], if i == 3 then 0 else if i == 5 then 11 else 1);
    }
  }

  lemma OptionsArePlain()
    ensures Plain(OPTIONS)
  {
    assert OPTIONS[0] == "ProxyJump";
    forall i | 0 <= i < |OPTIONS| ensures PlainKey(Lower(OPTIONS[i])) && PlainKey(OPTIONS[i]) && '=' !in OPTIONS[i] {
      OptionIsPlain(i);
    }
    forall i, j | 0 <= i < j < |OPTIONS| ensures Lower(OPTIONS[i]) != Lower(OPTIONS[j]) { OptionsDiffer(i, j); }
  }
}
