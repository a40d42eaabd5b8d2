/**
 * The drawing calls the renderer makes on a pdf-lib page, as values. A page is the
 * sequence of calls made on it. A call can throw (pdf-lib rejects a glyph the font cannot
 * encode, for example); which calls throw, and with what message, is a parameter.
 */
module Draw {
  import opened Wrappers
  import opened Js
  import opened ImageProcessor

  datatype Font = Helvetica | TimesRoman | Courier

  /** `rgb(r, g, b)`; a channel can be NaN when it comes from an unparsable hex colour. */
  datatype Color = Color(r: Num, g: Num, b: Num)

  function Gray(v: real): Color {
    Color(Finite(v), Finite(v), Finite(v))
  }

  const Black: Color := Gray(0.0)
  /**
   * `rgb(1, 1, 1, 0)`: pdf-lib's `rgb` takes three channels, so the fourth argument
   * the renderer passes for transparency is dropped and the fill is opaque white.
   */
  const White: Color := Gray(1.0)
  const Red: Color := Color(Finite(1.0), Finite(0.0), Finite(0.0))

  /**
   * Text drawn on the page. Numbers formatted with `toFixed(digits)` or with their default
   * string conversion are kept as numbers, since number formatting is not modelled.
   */
  datatype Content =
    | Plain(s: string)
    | Fixed(prefix: string, value: real, digits: nat, suffix: string)
    | Shown(prefix: string, value: real, suffix: string)

  datatype DrawOp =
    | DrawText(content: Content, x: real, y: real, size: real, font: Font,
               color: Option<Color>, maxWidth: Option<real>, lineHeight: Option<real>)
    | DrawLine(x1: real, y1: real, x2: real, y2: real, thickness: real, stroke: Color)
    | DrawRectangle(x: real, y: real, width: real, height: real,
                    fill: Option<Color>, border: Option<Color>, borderWidth: real)
    | DrawImage(image: Embedded, x: real, y: real, width: real, height: real, opacity: Option<real>)

  /** Some(message) for a call that throws, None for one that draws. */
  type Faults = DrawOp -> Option<string>

  /** The calls of `ops` that are made before the first one that throws (which draws nothing). */
  function UntilFault(ops: seq<DrawOp>, faults: Faults): (drawn: seq<DrawOp>)
    ensures |drawn| <= |ops| && drawn == ops[..|drawn|]
    ensures forall k :: 0 <= k < |drawn| ==> faults(drawn[k]).None?
    ensures |drawn| < |ops| ==> faults(ops[|drawn|]).Some?
  {
    if ops == [] || faults(ops[0]).Some? then []
    else [ops[0]] + UntilFault(ops[1..], faults)
  }

  /** No call of `ops` throws. */
  predicate NoFault(ops: seq<DrawOp>, faults: Faults) {
    forall k :: 0 <= k < |ops| ==> faults(ops[k]).None?
  }

  /** The message of the first call of `ops` that throws. */
  function FirstFault(ops: seq<DrawOp>, faults: Faults): (m: Option<string>)
    ensures m.None? <==> NoFault(ops, faults)
    ensures m.Some? ==> m == faults(ops[|UntilFault(ops, faults)|])
  {
    if ops == [] then None
    else if faults(ops[0]).Some? then faults(ops[0])
    else FirstFault(ops[1..], faults)
  }

  /** Nothing is cut when nothing throws, and the cut-off point is where the first call throws. */
  lemma {:induction false} UntilFaultExact(ops: seq<DrawOp>, faults: Faults)
    ensures UntilFault(ops, faults) == ops <==> NoFault(ops, faults)
  {
    if ops != [] && faults(ops[0]).None? {
      UntilFaultExact(ops[1..], faults);
      if NoFault(ops, faults) {
        assert NoFault(ops[1..], faults) by {
          forall k | 0 <= k < |ops[1..]| ensures faults(ops[1..][k]).None? {
            assert ops[1..][k] == ops[k + 1];
          }
        }
      }
    }
  }

  /** Drawing two runs in a row: the second starts only when the first ran to its end. */
  lemma {:induction false} UntilFaultAppend(a: seq<DrawOp>, b: seq<DrawOp>, faults: Faults)
    ensures UntilFault(a + b, faults) ==
            if NoFault(a, faults) then a + UntilFault(b, faults) else UntilFault(a, faults)
  {
    if a == [] {
      assert a + b == b;
    } else {
      assert (a + b)[0] == a[0];
      assert (a + b)[1..] == a[1..] + b;
      UntilFaultAppend(a[1..], b, faults);
      if faults(a[0]).None? {
        assert NoFault(a, faults) <==> NoFault(a[1..], faults) by {
          forall k | 0 <= k < |a[1..]| ensures a[1..][k] == a[k + 1] {
          }
        }
      }
    }
  }

  /** A run that draws to its end followed by another run. */
  lemma UntilFaultThrough(a: seq<DrawOp>, b: seq<DrawOp>, faults: Faults)
    requires NoFault(a, faults)
    ensures UntilFault(a + b, faults) == a + UntilFault(b, faults)
  {
    UntilFaultAppend(a, b, faults);
  }

  /** A run that throws part-way stops everything after it. */
  lemma UntilFaultStops(a: seq<DrawOp>, b: seq<DrawOp>, faults: Faults)
    requires !NoFault(a, faults)
    ensures UntilFault(a + b, faults) == UntilFault(a, faults)
  {
    UntilFaultAppend(a, b, faults);
  }

  /** The calls of several runs, one after another. */
  function Flatten(parts: seq<seq<DrawOp>>): seq<DrawOp> {
    if parts == [] then [] else Flatten(parts[..|parts| - 1]) + parts[|parts| - 1]
  }

  lemma FlattenSnoc(parts: seq<seq<DrawOp>>, p: seq<DrawOp>)
    ensures Flatten(parts + [p]) == Flatten(parts) + p
  {
    assert (parts + [p])[..|parts|] == parts;
  }

  /** Taking one more part of a sequence of parts appends that part to the flattened prefix. */
  lemma FlattenPrefixStep(parts: seq<seq<DrawOp>>, k: nat)
    requires k < |parts|
    ensures Flatten(parts[..k + 1]) == Flatten(parts[..k]) + parts[k]
  {
    var next := parts[..k + 1];
    assert next[..|next| - 1] == parts[..k];
    assert next[|next| - 1] == parts[k];
  }

  lemma {:induction false} FlattenAppend(a: seq<seq<DrawOp>>, b: seq<seq<DrawOp>>)
    ensures Flatten(a + b) == Flatten(a) + Flatten(b)
    decreases |b|
  {
    if b == [] {
      assert a + b == a;
    } else {
      var b' := b[..|b| - 1];
      assert a + b == (a + b') + [b[|b| - 1]];
      assert b == b' + [b[|b| - 1]];
      FlattenSnoc(a + b', b[|b| - 1]);
      FlattenSnoc(b', b[|b| - 1]);
      FlattenAppend(a, b');
    }
  }

  lemma FlattenCut(parts: seq<seq<DrawOp>>, i: nat)
    requires i < |parts|
    ensures Flatten(parts) == Flatten(parts[..i + 1]) + Flatten(parts[i + 1..])
  {
    assert parts == parts[..i + 1] + parts[i + 1..];
    FlattenAppend(parts[..i + 1], parts[i + 1..]);
  }

  /** Runs 0..i-1, run i, then the rest. */
  lemma FlattenAround(parts: seq<seq<DrawOp>>, i: nat)
    requires i < |parts|
    ensures Flatten(parts) == Flatten(parts[..i]) + (parts[i] + Flatten(parts[i + 1..]))
  {
    FlattenCut(parts, i);
    var upto := parts[..i + 1];
    assert upto[..|upto| - 1] == parts[..i];
    assert Flatten(upto) == Flatten(parts[..i]) + parts[i];
    AppendAssoc(Flatten(parts[..i]), parts[i], Flatten(parts[i + 1..]));
  }

  lemma AppendAssoc<T>(a: seq<T>, b: seq<T>, c: seq<T>)
    ensures (a + b) + c == a + (b + c)
  {
  }

  /** When run i is the first that throws, the calls made are all of runs 0..i-1 and the start of run i. */
  lemma FlattenFault(parts: seq<seq<DrawOp>>, i: nat, faults: Faults)
    requires i < |parts| && NoFault(Flatten(parts[..i]), faults) && !NoFault(parts[i], faults)
    ensures UntilFault(Flatten(parts), faults) == Flatten(parts[..i]) + UntilFault(parts[i], faults)
  {
    FlattenAround(parts, i);
    UntilFaultThrough(Flatten(parts[..i]), parts[i] + Flatten(parts[i + 1..]), faults);
    UntilFaultStops(parts[i], Flatten(parts[i + 1..]), faults);
  }

  lemma NoFaultAppend(a: seq<DrawOp>, b: seq<DrawOp>, faults: Faults)
    ensures NoFault(a + b, faults) <==> NoFault(a, faults) && NoFault(b, faults)
  {
    if NoFault(a, faults) && NoFault(b, faults) {
      forall k | 0 <= k < |a + b| ensures faults((a + b)[k]).None? {
        if k >= |a| {
          assert (a + b)[k] == b[k - |a|];
        }
      }
    }
    if NoFault(a + b, faults) {
      forall k | 0 <= k < |a| ensures faults(a[k]).None? {
        assert (a + b)[k] == a[k];
      }
      forall k | 0 <= k < |b| ensures faults(b[k]).None? {
        assert (a + b)[|a| + k] == b[k];
      }
    }
  }

  /** A run that throws makes the whole section throw. */
  lemma FaultSpreads(parts: seq<seq<DrawOp>>, i: nat, faults: Faults)
    requires i < |parts| && !NoFault(parts[i], faults)
    ensures !NoFault(Flatten(parts), faults)
  {
    FlattenAround(parts, i);
    NoFaultAppend(Flatten(parts[..i]), parts[i] + Flatten(parts[i + 1..]), faults);
    NoFaultAppend(parts[i], Flatten(parts[i + 1..]), faults);
  }
}
