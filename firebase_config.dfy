// The start-up check of the Firebase configuration: which required values
// are missing, and how each config key is named as an environment variable
// in the error message.

module FirebaseConfig {
  import opened Types
  import opened Strings

  /** The keys that must hold a value; `measurementId` is optional. */
  const RequiredKeys: seq<string> :=
    ["apiKey", "authDomain", "projectId", "storageBucket", "messagingSenderId", "appId"]

  const OptionalKey := "measurementId"

  const NamePrefix := "FIREBASE_"
  const MessageHead := "Missing required Firebase environment variables: "
  const MessageTail := ". Please check your .env file."

  /**
   * The configuration as read from the environment: a key is absent when its
   * variable is undefined.
   */
  type Config = map<string, string>

  /** `!firebaseConfig[key]`: an undefined or empty value is missing. */
  predicate Missing(config: Config, key: string) {
    key !in config || config[key] == ""
  }

  /** The keys of `keys` whose value is missing, in the order of `keys`. */
  function MissingFrom(keys: seq<string>, config: Config): (r: seq<string>)
    ensures |r| <= |keys|
    ensures forall k :: k in r <==> k in keys && Missing(config, k)
  {
    if |keys| == 0 then []
    else (if Missing(config, keys[0]) then [keys[0]] else []) + MissingFrom(keys[1..], config)
  }

  /** The filter works piecewise, so missing keys are reported in required-list order. */
  lemma {:induction false} MissingFromAppend(a: seq<string>, b: seq<string>, config: Config)
    ensures MissingFrom(a + b, config) == MissingFrom(a, config) + MissingFrom(b, config)
    decreases |a|
  {
    if |a| == 0 {
      assert a + b == b;
    } else {
      assert (a + b)[0] == a[0] && (a + b)[1..] == a[1..] + b;
      MissingFromAppend(a[1..], b, config);
    }
  }

  /** `missingVars`. */
  function MissingVars(config: Config): (r: seq<string>)
    ensures forall k :: k in r <==> k in RequiredKeys && Missing(config, k)
  {
    MissingFrom(RequiredKeys, config)
  }

  /** The optional key is never reported, whatever the configuration holds. */
  lemma OptionalNeverMissing(config: Config)
    ensures OptionalKey !in MissingVars(config)
  {
    assert OptionalKey !in RequiredKeys by {
      assert OptionalKey[0] == 'm' && OptionalKey[1] == 'e' && OptionalKey[2] == 'a';
      assert RequiredKeys[4][2] == 's';
    }
  }

  /** When every key is missing the filter keeps them all. */
  lemma {:induction false} AllMissing(keys: seq<string>, config: Config)
    requires forall i :: 0 <= i < |keys| ==> Missing(config, keys[i])
    ensures MissingFrom(keys, config) == keys
    decreases |keys|
  {
    if |keys| > 0 {
      AllMissing(keys[1..], config);
    }
  }

  /** When no key is missing the filter keeps none. */
  lemma {:induction false} NoneMissing(keys: seq<string>, config: Config)
    requires forall i :: 0 <= i < |keys| ==> !Missing(config, keys[i])
    ensures MissingFrom(keys, config) == []
    decreases |keys|
  {
    if |keys| > 0 {
      NoneMissing(keys[1..], config);
    }
  }

  /** With no value at all, every required key is reported, in order. */
  lemma EmptyConfigMissesAll()
    ensures MissingVars(map[]) == RequiredKeys
  {
    AllMissing(RequiredKeys, map[]);
  }

  // --------------------------------------------------------- names

  predicate IsUpper(c: char) {
    'A' <= c <= 'Z'
  }

  predicate IsLower(c: char) {
    'a' <= c <= 'z'
  }

  /** `toUpperCase` on one character, for the ASCII letters. */
  function UpperChar(c: char): (r: char)
    ensures !IsLower(r)
    ensures IsLower(c) ==> r as int == c as int - 32
    ensures !IsLower(c) ==> r == c
  {
    if IsLower(c) then (c as int - 32) as char else c
  }

  function CountUpper(s: string): nat {
    if |s| == 0 then 0 else (if IsUpper(s[0]) then 1 else 0) + CountUpper(s[1..])
  }

  /** `replace(/([A-Z])/g, '_$1')`: an underscore before every capital letter. */
  function Underscored(s: string): (r: string)
    ensures |r| == |s| + CountUpper(s)
  {
    if |s| == 0 then ""
    else (if IsUpper(s[0]) then ['_', s[0]] else [s[0]]) + Underscored(s[1..])
  }

  function Upper(s: string): (r: string)
    ensures |r| == |s|
    ensures forall i :: 0 <= i < |s| ==> r[i] == UpperChar(s[i])
  {
    seq(|s|, i requires 0 <= i < |s| => UpperChar(s[i]))
  }

  /** The variable a config key is read from, e.g. `apiKey` becomes `FIREBASE_API_KEY`. */
  function EnvName(key: string): string {
    NamePrefix + Upper(Underscored(key))
  }

  lemma PrefixHasNoLower()
    ensures forall i :: 0 <= i < |NamePrefix| ==> !IsLower(NamePrefix[i])
  {
    assert NamePrefix == ['F', 'I', 'R', 'E', 'B', 'A', 'S', 'E', '_'];
  }

  /** A variable name has no lower-case letter and is one character longer per capital of its key. */
  lemma EnvNameShape(key: string)
    ensures forall i :: 0 <= i < |EnvName(key)| ==> !IsLower(EnvName(key)[i])
    ensures |EnvName(key)| == |NamePrefix| + |key| + CountUpper(key)
  {
    var n := EnvName(key);
    var u := Upper(Underscored(key));
    PrefixHasNoLower();
    forall i | 0 <= i < |n| ensures !IsLower(n[i]) {
      if i < |NamePrefix| {
        assert n[i] == NamePrefix[i];
      } else {
        assert n[i] == u[i - |NamePrefix|];
      }
    }
  }

  /** Splitting a key splits its underscored form. */
  lemma {:induction false} UnderscoredAppend(a: string, b: string)
    ensures Underscored(a + b) == Underscored(a) + Underscored(b)
    decreases |a|
  {
    if |a| == 0 {
      assert a + b == b;
    } else {
      assert (a + b)[0] == a[0] && (a + b)[1..] == a[1..] + b;
      UnderscoredAppend(a[1..], b);
    }
  }

  /** A key made of lower-case letters only comes out upper-cased and otherwise unchanged. */
  lemma {:induction false} UnderscoredLower(s: string)
    requires forall i :: 0 <= i < |s| ==> IsLower(s[i])
    ensures Underscored(s) == s
    decreases |s|
  {
    if |s| > 0 {
      UnderscoredLower(s[1..]);
    }
  }

  /** Upper-casing works character by character, so it distributes over concatenation. */
  lemma UpperAppend(a: string, b: string)
    ensures Upper(a + b) == Upper(a) + Upper(b)
  {
    assert forall i :: 0 <= i < |a + b| ==> (a + b)[i] == if i < |a| then a[i] else b[i - |a|];
  }

  /** A capitalised word is underscored in front of its capital only. */
  lemma UnderscoredWord(key: string, cap: char, rest: string)
    requires IsUpper(cap)
    requires forall i :: 0 <= i < |rest| ==> IsLower(rest[i])
    ensures Underscored(key + [cap] + rest) == Underscored(key) + (['_', cap] + rest)
  {
    var u := Underscored(key);
    assert Underscored([cap]) == ['_', cap] by {
      assert [cap][1..] == [];
    }
    UnderscoredAppend(key, [cap]);
    UnderscoredAppend(key + [cap], rest);
    UnderscoredLower(rest);
    assert u + ['_', cap] + rest == u + (['_', cap] + rest);
  }

  /** Appending a capitalised word adds an underscore and the word upper-cased. */
  lemma AppendWord(key: string, cap: char, rest: string)
    requires IsUpper(cap)
    requires forall i :: 0 <= i < |rest| ==> IsLower(rest[i])
    ensures EnvName(key + [cap] + rest) == EnvName(key) + "_" + [cap] + Upper(rest)
  {
    var u := Underscored(key);
    UnderscoredWord(key, cap, rest);
    UpperAppend(u, ['_', cap] + rest);
    UpperAppend(['_', cap], rest);
    assert Upper(['_', cap]) == "_" + [cap];
  }

  /** A lower-case key is only upper-cased. */
  lemma LowerWord(key: string)
    requires forall i :: 0 <= i < |key| ==> IsLower(key[i])
    ensures EnvName(key) == NamePrefix + Upper(key)
  {
    UnderscoredLower(key);
  }

  /** The variable of a two-word key, from its two words. */
  lemma TwoWords(head: string, cap: char, rest: string, key: string, name: string)
    requires forall i :: 0 <= i < |head| ==> IsLower(head[i])
    requires IsUpper(cap)
    requires forall i :: 0 <= i < |rest| ==> IsLower(rest[i])
    requires key == head + [cap] + rest
    requires name == NamePrefix + Upper(head) + "_" + [cap] + Upper(rest)
    ensures EnvName(key) == name
  {
    LowerWord(head);
    AppendWord(head, cap, rest);
  }

  /** The example of the source's own comment. */
  lemma ApiKeyName()
    ensures EnvName("apiKey") == "FIREBASE_API_KEY"
  {
    assert Upper("api") == "API" && Upper("ey") == "EY";
    TwoWords("api", 'K', "ey", "apiKey", "FIREBASE_API_KEY");
  }

  // -------------------------------------------------------- the check

  /** The module either initialises or throws with the list of missing variables. */
  datatype ConfigCheck = Ready | MissingError(message: string)

  function EnvNames(keys: seq<string>): (r: seq<string>)
    ensures |r| == |keys|
    ensures forall i :: 0 <= i < |keys| ==> r[i] == EnvName(keys[i])
  {
    seq(|keys|, i requires 0 <= i < |keys| => EnvName(keys[i]))
  }

  /** The error is raised exactly when a required value is missing, naming each missing variable. */
  function Check(config: Config): (r: ConfigCheck)
    ensures r.MissingError? <==> exists k :: k in RequiredKeys && Missing(config, k)
    ensures r.MissingError? ==>
              r.message == MessageHead + Join(EnvNames(MissingVars(config)), ", ") + MessageTail
  {
    var missing := MissingVars(config);
    if |missing| > 0 then
      assert missing[0] in missing;
      MissingError(MessageHead + Join(EnvNames(missing), ", ") + MessageTail)
    else
      assert forall k :: k in RequiredKeys ==> !Missing(config, k);
      Ready
  }

  /** A configuration lacking only its API key reports exactly that variable. */
  lemma OnlyApiKeyMissing(config: Config)
    requires Missing(config, "apiKey")
    requires forall i :: 1 <= i < |RequiredKeys| ==> !Missing(config, RequiredKeys[i])
    ensures MissingVars(config) == ["apiKey"]
    ensures Check(config) == MissingError(MessageHead + "FIREBASE_API_KEY" + MessageTail)
  {
    var ks := RequiredKeys;
    NoneMissing(ks[1..], config);
    assert MissingFrom(ks, config) == [ks[0]] + MissingFrom(ks[1..], config);
    ApiKeyName();
    assert EnvNames(["apiKey"]) == ["FIREBASE_API_KEY"];
  }
}
