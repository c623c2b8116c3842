/** Server entries, transport names and the candidates a server offers. */
module Transports {

  datatype ServerEntry = ServerEntry(address: string, psk: string, sni: string, weight: int, transport: string,
                                     secretPath: string, fingerprint: string)

  // ----- Transport names

  predicate IsSpace(c: char) {
    c in {' ', '\t', '\n', '\U{0B}', '\U{0C}', '\r'}
  }

  function TrimSpace(s: string): string {
    if s != "" && IsSpace(s[0]) then TrimSpace(s[1..])
    else if s != "" && IsSpace(s[|s| - 1]) then TrimSpace(s[..|s| - 1])
    else s
  }

  function LowerChar(c: char): char {
    if 'A' <= c <= 'Z' then (c as int + 32) as char else c
  }

  function ToLower(s: string): string {
    seq(|s|, i requires 0 <= i < |s| => LowerChar(s[i]))
  }

  const NAMES: seq<string> := ["tls", "quic", "reality", "mirage", "masque", "redstone", "webrtc"]

  // The transports that are dialled on their own, without a fallback.
  const SINGLE: seq<string> := ["reality", "mirage", "masque", "redstone", "webrtc"]

  function NormalizePreference(transport: string): string {
    var name := ToLower(TrimSpace(transport));
    if name in NAMES then name
    else if name == "any" || name == "auto" then "auto"
    else ""
  }

  function NormalizeStored(transport: string): string {
    var name := NormalizePreference(transport);
    if name in ["tls", "quic", "auto"] then name else ""
  }

  predicate Normal(name: string) {
    name in NAMES || name == "auto" || name == ""
  }

  predicate Plain(s: string) {
    forall i :: 0 <= i < |s| ==> 'a' <= s[i] <= 'z'
  }

  lemma PlainStays(s: string)
    requires Plain(s)
    ensures ToLower(TrimSpace(s)) == s
  {
    assert TrimSpace(s) == s;
    assert ToLower(s) == s;
  }

  /** Normalising yields a known name, and normalising again changes nothing. */
  lemma NormalizingTwice(transport: string)
    ensures Normal(NormalizePreference(transport))
    ensures NormalizePreference(NormalizePreference(transport)) == NormalizePreference(transport)
  {
    var name := NormalizePreference(transport);
    assert Plain(name);
    PlainStays(name);
  }

  predicate Spaces(s: string) {
    forall i :: 0 <= i < |s| ==> IsSpace(s[i])
  }

  lemma {:induction false} TrimPadded(before: string, word: string, after: string)
    requires Spaces(before) && Spaces(after)
    requires word != "" && !IsSpace(word[0]) && !IsSpace(word[|word| - 1])
    ensures TrimSpace(before + word + after) == word
    decreases |before| + |after|
  {
    var s := before + word + after;
    if before != "" {
      assert s[1..] == before[1..] + word + after;
      TrimPadded(before[1..], word, after);
    } else if after != "" {
      assert s[0] == word[0];
      assert s[..|s| - 1] == before + word + after[..|after| - 1];
      TrimPadded(before, word, after[..|after| - 1]);
    } else {
      assert s == word;
    }
  }

  /** Every spelling of a name, in any case and with any spaces around it, is normalised to that name. */
  lemma EverySpelling(name: string, before: string, spelling: string, after: string)
    requires name in ["tls", "quic", "reality", "mirage", "masque", "redstone", "webrtc", "auto"]
    requires ToLower(spelling) == name && Spaces(before) && Spaces(after)
    ensures NormalizePreference(before + spelling + after) == name
  {
    assert |spelling| == |name| > 0;
    assert LowerChar(spelling[0]) == name[0] && LowerChar(spelling[|name| - 1]) == name[|name| - 1];
    TrimPadded(before, spelling, after);
  }

  lemma {:induction false} TrimIsMiddle(s: string) returns (before: string, after: string)
    ensures s == before + TrimSpace(s) + after && Spaces(before) && Spaces(after)
    decreases |s|
  {
    if s != "" && IsSpace(s[0]) {
      var b, a := TrimIsMiddle(s[1..]);
      before, after := [s[0]] + b, a;
    } else if s != "" && IsSpace(s[|s| - 1]) {
      var b, a := TrimIsMiddle(s[..|s| - 1]);
      before, after := b, a + [s[|s| - 1]];
    } else {
      before, after := "", "";
    }
  }

  /** And nothing else is: what is normalised to a name is a spelling of it, or of `any` for `auto`. */
  lemma OnlySpellings(transport: string) returns (before: string, spelling: string, after: string)
    requires NormalizePreference(transport) != ""
    ensures transport == before + spelling + after && Spaces(before) && Spaces(after)
    ensures ToLower(spelling) == NormalizePreference(transport)
            || (ToLower(spelling) == "any" && NormalizePreference(transport) == "auto")
  {
    before, after := TrimIsMiddle(transport);
    spelling := TrimSpace(transport);
  }

  // ----- Candidates

  // The transport to try first.
  function Primary(transport: string, preferred: string): string {
    var own := NormalizePreference(transport);
    var name := if own == "" || own == "auto" then NormalizePreference(preferred) else own;
    if name == "" then "tls" else name
  }

  function Order(primary: string): seq<string> {
    if primary in SINGLE then [primary]
    else if primary == "quic" then ["quic", "tls"]
    else ["tls", "quic"]
  }

  function Positive(weight: int): int {
    if weight <= 0 then 1 else weight
  }

  function Offer(base: ServerEntry, transport: string): ServerEntry {
    base.(transport := transport, weight := Positive(base.weight))
  }

  /** The candidates of one server, in order of preference. */
  function Variants(base: ServerEntry, preferred: string): (r: seq<ServerEntry>)
    ensures r != []
  {
    var order := Order(Primary(base.transport, preferred));
    seq(|order|, k requires 0 <= k < |order| => Offer(base, order[k]))
  }

  method BuildTransportVariants(base: ServerEntry, preferred: string) returns (variants: seq<ServerEntry>)
    ensures variants == Variants(base, preferred)
  {
    var primary := NormalizePreference(base.transport);
    if primary == "" || primary == "auto" {
      primary := NormalizePreference(preferred);
    }
    if primary == "" {
      primary := "tls";
    }
    if primary in SINGLE {
      var variant := base.(transport := primary);
      if variant.weight <= 0 {
        variant := variant.(weight := 1);
      }
      return [variant];
    }
    var order := ["tls", "quic"];
    if primary == "quic" {
      order := ["quic", "tls"];
    }
    variants := [];
    var seen: set<string> := {};
    var i := 0;
    while i < |order|
      invariant 0 <= i <= |order|
      invariant seen == set k | 0 <= k < i :: order[k]
      invariant |variants| == i
      invariant forall k :: 0 <= k < i ==> variants[k] == Offer(base, order[k])
    {
      if order[i] !in seen {
        seen := seen + {order[i]};
        var variant := base.(transport := order[i]);
        if variant.weight <= 0 {
          variant := variant.(weight := 1);
        }
        variants := variants + [variant];
      }
      i := i + 1;
    }
  }

  /** The preference may be normalised beforehand. */
  lemma PreferenceNormalized(base: ServerEntry, preferred: string)
    ensures Variants(base, NormalizePreference(preferred)) == Variants(base, preferred)
  {
    NormalizingTwice(preferred);
  }

  /**
   The transport a server names comes first, else the one the client prefers, else TLS; only TLS and
   QUIC have a fallback, and it is the other of the two.
   */
  lemma NamedTransportFirst(base: ServerEntry, preferred: string)
    ensures var own, wish := NormalizePreference(base.transport), NormalizePreference(preferred);
            var known := ["tls", "quic", "reality", "mirage", "masque", "redstone", "webrtc"];
            var vs := Variants(base, preferred);
            && vs[0].transport == (if own in known then own else if wish in known then wish else vs[0].transport)
            && (own !in known && wish !in known ==> vs[0].transport == "tls")
            && (|vs| == 1 <==> vs[0].transport in ["reality", "mirage", "masque", "redstone", "webrtc"])
            && (|vs| != 1 ==> |vs| == 2 && {vs[0].transport, vs[1].transport} == {"tls", "quic"})
  {
    NormalizingTwice(base.transport);
    NormalizingTwice(preferred);
    hide NormalizePreference;
    var primary := Primary(base.transport, preferred);
    assert Normal(primary) && primary != "";
  }

  // What a subscription entry becomes when the selector takes it over.
  function Normalized(e: ServerEntry): ServerEntry {
    e.(weight := Positive(e.weight), transport := NormalizeStored(e.transport))
  }

  /** Taking an entry over repairs its weight and its transport name, and changes nothing else. */
  lemma TakeoverKeepsEntry(e: ServerEntry)
    ensures Normalized(e) == e.(weight := if e.weight >= 1 then e.weight else 1, transport := Normalized(e).transport)
  {
  }

  lemma StoredName(transport: string)
    ensures NormalizePreference(NormalizeStored(transport)) == NormalizeStored(transport)
  {
    var name := NormalizeStored(transport);
    assert Plain(name);
    PlainStays(name);
  }

  /**
   Taking an entry over leaves its candidates alone, whatever the preference,
   exactly when the entry does not name one of the single transports: those
   names are dropped and the preference takes their place.
   */
  lemma TakeoverKeepsCandidates(e: ServerEntry)
    ensures (forall preferred :: Variants(Normalized(e), preferred) == Variants(e, preferred))
       <==> NormalizePreference(e.transport) !in ["reality", "mirage", "masque", "redstone", "webrtc"]
  {
    StoredName(e.transport);
    NormalizingTwice(e.transport);
    if NormalizePreference(e.transport) in SINGLE {
      PlainStays("tls");
      assert Variants(Normalized(e), "tls")[0].transport == "tls";
      assert Variants(e, "tls")[0].transport == NormalizePreference(e.transport);
    } else {
      forall preferred ensures Variants(Normalized(e), preferred) == Variants(e, preferred) {
        assert Primary(NormalizeStored(e.transport), preferred) == Primary(e.transport, preferred);
      }
    }
  }

  // ----- Statistics keys

  function StatsKey(server: ServerEntry): string {
    server.address + "|" + if NormalizePreference(server.transport) == "quic" then "quic" else "tls"
  }

  /** Two candidates share statistics exactly when they share the address and both or neither use QUIC. */
  lemma KeysSeparate(a: ServerEntry, b: ServerEntry)
    ensures StatsKey(a) == StatsKey(b) <==>
              a.address == b.address
              && (NormalizePreference(a.transport) == "quic" <==> NormalizePreference(b.transport) == "quic")
  {
    var x, y := StatsKey(a), StatsKey(b);
    if x == y {
      assert x[|x| - 1] == (if NormalizePreference(a.transport) == "quic" then 'c' else 's');
      assert y[|y| - 1] == (if NormalizePreference(b.transport) == "quic" then 'c' else 's');
      var n := if NormalizePreference(a.transport) == "quic" then 5 else 4;
      assert a.address == x[..|x| - n];
      assert b.address == y[..|y| - n];
    }
  }

  lemma FallbackHasOwnKey(base: ServerEntry)
    ensures StatsKey(Offer(base, "tls")) != StatsKey(Offer(base, "quic"))
  {
    PlainStays("tls");
    PlainStays("quic");
    KeysSeparate(Offer(base, "tls"), Offer(base, "quic"));
  }

  /** The candidates of a server differ from it only in transport and weight, and keep separate statistics. */
  lemma VariantsAreDistinct(base: ServerEntry, preferred: string)
    ensures forall v <- Variants(base, preferred) ::
              v == base.(transport := v.transport, weight := if base.weight >= 1 then base.weight else 1)
    ensures var vs := Variants(base, preferred);
            |vs| == 1 || (|vs| == 2 && StatsKey(vs[0]) != StatsKey(vs[1]))
  {
    FallbackHasOwnKey(base);
  }
}
