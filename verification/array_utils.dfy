/** Index arithmetic between 3-D grid coordinates and a flat, row-major index:
    x varies fastest, then y, then z. */
module ArrayUtils {

  /** The flat index of (x, y, z) in a grid whose rows are `width` long and
      whose layers are `width * height` large. */
  function Flatten(x: nat, y: nat, z: nat, width: nat, height: nat): nat
  {
    z * width * height + y * width + x
  }

  /** The inverse of Flatten: the layer is the quotient by the layer size, the
      row the quotient of what remains by the row length, and x the rest. */
  function Expand(index: nat, width: nat, height: nat): (r: (nat, nat, nat))
    requires width > 0 && height > 0
    ensures r.0 < width && r.1 < height
    ensures Flatten(r.0, r.1, r.2, width, height) == index
  {
    var wh := width * height;
    var z := index / wh;
    var rest := index - z * wh;
    var y := rest / width;
    var x := rest - y * width;
    ExpandParts(index, width, height, z, rest, y);
    (x, y, z)
  }

  lemma ExpandParts(index: nat, width: nat, height: nat, z: nat, rest: int, y: nat)
    requires width > 0 && height > 0
    requires z == index / (width * height) && rest == index - z * (width * height)
    requires y == rest / width
    ensures 0 <= rest < width * height
    ensures 0 <= rest - y * width < width && y < height
    ensures z * width * height + y * width + (rest - y * width) == index
  {
    var wh := width * height;
    DivModBound(index, wh);
    DivModBound(rest, width);
    RowFitsLayer(rest, y, width, height);
    MulAssoc(z, width, height);
  }

  lemma MulAssoc(a: nat, b: nat, c: nat)
    ensures a * b * c == a * (b * c)
  {
  }

  lemma DivModBound(n: nat, d: nat)
    requires d > 0
    ensures 0 <= n - (n / d) * d < d
    ensures n / d * d <= n
  {
  }

  /** A remainder below width * height has a row index below height. */
  lemma RowFitsLayer(rest: nat, y: nat, width: nat, height: nat)
    requires width > 0 && height > 0
    requires rest < width * height
    requires y == rest / width
    ensures y < height
  {
    if y >= height {
      MulMono(height, y, width);
    }
  }

  lemma MulMono(a: nat, b: nat, c: nat)
    requires a <= b
    ensures a * c <= b * c
  {
  }

  /** Quotient uniqueness: a value written as q * d + r with r below d has
      quotient q. */
  lemma DivUnique(n: nat, d: nat, q: nat, r: nat)
    requires d > 0 && r < d && n == q * d + r
    ensures n / d == q && n % d == r
  {
    var q', r' := n / d, n % d;
    assert n == q' * d + r';
    if q' > q {
      assert (q + 1) * d == q * d + d;
      MulMono(q + 1, q', d);
    } else if q' < q {
      MulMono(q' + 1, q, d);
    }
  }

  /** A coordinate inside a width x height x length box flattens below the
      box's volume. */
  lemma {:induction false} FlattenBound(x: nat, y: nat, z: nat, width: nat, height: nat, length: nat)
    requires x < width && y < height && z < length
    ensures Flatten(x, y, z, width, height) < width * height * length
  {
    assert y * width + x < width * height by {
      MulMono(y, height - 1, width);
      assert (height - 1) * width == height * width - width;
    }
    MulMono(z, length - 1, width * height);
    assert (length - 1) * (width * height) == length * (width * height) - width * height;
    MulAssoc(z, width, height);
    assert width * height * length == length * (width * height);
  }

  /** Expanding a flattened in-range coordinate gives the coordinate back. */
  lemma {:induction false} ExpandFlatten(x: nat, y: nat, z: nat, width: nat, height: nat)
    requires x < width && y < height
    ensures Expand(Flatten(x, y, z, width, height), width, height) == (x, y, z)
  {
    var wh := width * height;
    var i := Flatten(x, y, z, width, height);
    assert y * width + x < wh by {
      MulMono(y, height - 1, width);
      assert (height - 1) * width == height * width - width;
    }
    MulAssoc(z, width, height);
    DivUnique(i, wh, z, y * width + x);
    DivUnique(y * width + x, width, y, x);
  }

  /** Flatten is injective on coordinates inside a row/layer: two in-range
      coordinates share an index only if they are equal. */
  lemma {:induction false} FlattenInjective(x1: nat, y1: nat, z1: nat, x2: nat, y2: nat, z2: nat, width: nat, height: nat)
    requires x1 < width && y1 < height && x2 < width && y2 < height
    requires Flatten(x1, y1, z1, width, height) == Flatten(x2, y2, z2, width, height)
    ensures x1 == x2 && y1 == y2 && z1 == z2
  {
    ExpandFlatten(x1, y1, z1, width, height);
    ExpandFlatten(x2, y2, z2, width, height);
  }
}
