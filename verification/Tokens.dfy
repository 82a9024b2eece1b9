/** The list of authorization tokens as one text: lib/client.js `get_stokens`, and the split in
    lib/server.js `got_tokens`. */
module Tokens {
  import Texts

  function Join(ts: seq<string>): string { Texts.Join(ts, ",") }

  function Split(s: string): seq<string> { Texts.Split(s, ",") }

  // filter(t => t)
  function NonEmpty(parts: seq<string>): seq<string> {
    if parts == [] then [] else (if parts[0] == "" then [] else [parts[0]]) + NonEmpty(parts[1..])
  }

  function Recovered(s: string): seq<string> { NonEmpty(Split(s)) }

  lemma {:induction false} NonEmptyAppend(a: seq<string>, b: seq<string>)
    ensures NonEmpty(a + b) == NonEmpty(a) + NonEmpty(b)
    decreases |a|
  {
    if a == [] {
      assert a + b == b;
    } else {
      assert (a + b)[1..] == a[1..] + b;
      NonEmptyAppend(a[1..], b);
    }
  }

  /** For any texts: those on either side of a comma are read apart, and one without a comma is a token unless empty. */
  lemma RecoveredApart(a: string, b: string)
    ensures Recovered(a + "," + b) == Recovered(a) + Recovered(b)
    ensures ',' !in a ==> Recovered(a) == if a == "" then [] else [a]
  {
    Texts.SplitBetween(a, ',', b);
    NonEmptyAppend(Split(a), Split(b));
    if ',' !in a {
      Texts.SplitOne(a, ',');
      assert [a][1..] == [];
    }
  }

  // A token that survives the journey.
  predicate Plain(t: string) { t != "" && ',' !in t }

  lemma {:induction false} NonEmptyParts(parts: seq<string>)
    requires forall i :: 0 <= i < |parts| ==> ',' !in parts[i]
    ensures forall i :: 0 <= i < |NonEmpty(parts)| ==> Plain(NonEmpty(parts)[i])
  {
    if parts != [] { NonEmptyParts(parts[1..]); }
  }

  lemma {:induction false} PlainRecovered(ts: seq<string>)
    requires forall i :: 0 <= i < |ts| ==> Plain(ts[i])
    ensures Recovered(Join(ts)) == ts
  {
    if |ts| == 1 {
      Texts.SplitOne(ts[0], ',');
      assert Split(ts[0])[1..] == [];
      assert NonEmpty([ts[0]]) == [ts[0]] + NonEmpty([]);
    } else if |ts| > 1 {
      assert Join(ts) == ts[0] + [','] + Join(ts[1..]);
      Texts.SplitAt(ts[0], ',', Join(ts[1..]));
      assert ([ts[0]] + Split(Join(ts[1..])))[1..] == Split(Join(ts[1..]));
      PlainRecovered(ts[1..]);
      assert [ts[0]] + ts[1..] == ts;
    }
  }

  /** The server gets back the client's tokens exactly when none of them is empty or contains a comma. */
  lemma TokensRecovered(ts: seq<string>)
    ensures Recovered(Join(ts)) == ts <==> forall i :: 0 <= i < |ts| ==> Plain(ts[i])
  {
    if forall i :: 0 <= i < |ts| ==> Plain(ts[i]) { PlainRecovered(ts); }
    Texts.SplitParts(Join(ts), ',');
    NonEmptyParts(Split(Join(ts)));
  }
}
