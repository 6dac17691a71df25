/** Rust's `format!` for templates made of literal text and `{}`
    placeholders: each placeholder is replaced, in order, by the next
    argument, inserted verbatim (no escaping or encoding of any kind). */
module Fmt {
  import opened Strings

  datatype Piece = Lit(text: string) | Slot

  /** Renders the template. Rust rejects a placeholder without an argument
      at compile time; here such a placeholder renders as nothing. */
  function Format(template: seq<Piece>, args: seq<string>): (rendered: string)
  {
    if template == [] then ""
    else match template[0]
      case Lit(t) => t + Format(template[1..], args)
      case Slot =>
        if args == [] then Format(template[1..], args)
        else args[0] + Format(template[1..], args[1..])
  }

  /** The length of the template's literal text. */
  function LitLength(template: seq<Piece>): nat
  {
    if template == [] then 0
    else (match template[0] case Lit(t) => |t| case Slot => 0) + LitLength(template[1..])
  }

  /** Literal text is copied and each argument inserted at most once: the
      rendering is at least as long as the literal text and at most that
      plus all the arguments. */
  lemma {:induction false} FormatLength(template: seq<Piece>, args: seq<string>)
    ensures LitLength(template) <= |Format(template, args)| <= LitLength(template) + TotalLength(args)
  {
    if template != [] {
      match template[0]
      case Lit(t) =>
        FormatLength(template[1..], args);
      case Slot =>
        if args == [] {
          FormatLength(template[1..], args);
        } else {
          FormatLength(template[1..], args[1..]);
        }
    }
  }

  lemma FormatLit(t: string, rest: seq<Piece>, args: seq<string>)
    ensures Format([Lit(t)] + rest, args) == t + Format(rest, args)
  {
    assert ([Lit(t)] + rest)[1..] == rest;
  }

  lemma FormatSlot(a: string, rest: seq<Piece>, args: seq<string>)
    ensures Format([Slot] + rest, [a] + args) == a + Format(rest, args)
  {
    assert ([Slot] + rest)[1..] == rest;
    assert ([a] + args)[1..] == args;
  }

  lemma FormatEnd(args: seq<string>)
    ensures Format([], args) == ""
  {
  }

  /** `<lit>{a}` renders to lit + a. */
  lemma FormatPrefix(lit: string, a: string)
    ensures Format([Lit(lit), Slot], [a]) == lit + a
  {
    FormatSlot(a, [], []);
    assert [Lit(lit), Slot] == [Lit(lit)] + [Slot];
    FormatLit(lit, [Slot], [a]);
  }

  /** `{a}<lit>{b}` renders to a + lit + b. */
  lemma FormatInfix(a: string, lit: string, b: string)
    ensures Format([Slot, Lit(lit), Slot], [a, b]) == a + lit + b
  {
    FormatPrefix(lit, b);
    assert [Slot, Lit(lit), Slot] == [Slot] + [Lit(lit), Slot];
    assert [a, b] == [a] + [b];
    FormatSlot(a, [Lit(lit), Slot], [b]);
  }

  /** `{a}<lit1>{b}<lit2>` renders to a + lit1 + b + lit2. */
  lemma FormatInfixSuffix(a: string, lit1: string, b: string, lit2: string)
    ensures Format([Slot, Lit(lit1), Slot, Lit(lit2)], [a, b]) == a + lit1 + b + lit2
  {
    FormatLit(lit2, [], []);
    FormatSlot(b, [Lit(lit2)], []);
    assert [b] + [] == [b];
    assert [Lit(lit2)] + [] == [Lit(lit2)];
    assert [Slot, Lit(lit2)] == [Slot] + [Lit(lit2)];
    FormatLit(lit1, [Slot, Lit(lit2)], [b]);
    assert [Lit(lit1), Slot, Lit(lit2)] == [Lit(lit1)] + [Slot, Lit(lit2)];
    FormatSlot(a, [Lit(lit1), Slot, Lit(lit2)], [b]);
    assert [Slot, Lit(lit1), Slot, Lit(lit2)] == [Slot] + [Lit(lit1), Slot, Lit(lit2)];
    assert [a, b] == [a] + [b];
  }

  /** `{a}<l1>{b}<l2>{c}<l3>{d}` renders to the concatenation in order. */
  lemma FormatFour(a: string, l1: string, b: string, l2: string, c: string, l3: string, d: string)
    ensures Format([Slot, Lit(l1), Slot, Lit(l2), Slot, Lit(l3), Slot], [a, b, c, d])
         == a + l1 + b + l2 + c + l3 + d
  {
    FormatInfix(c, l3, d);
    FormatLit(l2, [Slot, Lit(l3), Slot], [c, d]);
    assert [Lit(l2), Slot, Lit(l3), Slot] == [Lit(l2)] + [Slot, Lit(l3), Slot];
    FormatSlot(b, [Lit(l2), Slot, Lit(l3), Slot], [c, d]);
    assert [Slot, Lit(l2), Slot, Lit(l3), Slot] == [Slot] + [Lit(l2), Slot, Lit(l3), Slot];
    assert [b, c, d] == [b] + [c, d];
    FormatLit(l1, [Slot, Lit(l2), Slot, Lit(l3), Slot], [b, c, d]);
    assert [Lit(l1), Slot, Lit(l2), Slot, Lit(l3), Slot] == [Lit(l1)] + [Slot, Lit(l2), Slot, Lit(l3), Slot];
    FormatSlot(a, [Lit(l1), Slot, Lit(l2), Slot, Lit(l3), Slot], [b, c, d]);
    assert [Slot, Lit(l1), Slot, Lit(l2), Slot, Lit(l3), Slot] == [Slot] + [Lit(l1), Slot, Lit(l2), Slot, Lit(l3), Slot];
    assert [a, b, c, d] == [a] + [b, c, d];
  }
}
