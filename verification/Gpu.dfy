/** The textures of src/cg_interface.c: the handles that name them, and the draws between them. */
module Gpu {
  import opened Shaders

  type Handle = nat

  /** One global texture handle each. */
  datatype Role = Frame | InY | InU | InV | Ref | Avg | Avg2 | Tmp | Tmp2 | Sub2Ref | Sub2Avg | Sub4Ref | Sub4Avg | Diff
                | Vector | Vector2 | Vector3 | Vector4 | Bad | Bad2

  datatype Draw = Draw(target: Handle, sources: set<Handle>, w: int, h: int)

  type Dims = (int, int)

  /** Half of n, rounded up. */
  function Half(n: int): int {
    (n + 1) / 2
  }

  /** A picture after a draw over the w by h pixels at its origin. */
  function Painted(before: Texture, shade: Texture, w: int, h: int): Texture {
    (x: int, y: int) => if 0 <= x < w && 0 <= y < h then shade(x, y) else before(x, y)
  }

  /** What a copy leaves. */
  function CopyShade(t: Texture): Texture {
    (x: int, y: int) => t(x, y).(w := 1.0)
  }

  function ClampInt(i: int, low: int, high: int): int {
    if i < low then low else if i > high then high else i
  }

  /** Nothing in the range is nearer. */
  lemma ClampIntIsNearest(i: int, low: int, high: int, k: int)
    requires low <= k <= high
    ensures var c := ClampInt(i, low, high);
      low <= c <= high && (if c <= i then i - c else c - i) <= (if k <= i then i - k else k - i)
  {
  }

  /** A w by h picture as it is sampled: outside, the pixel at the edge. */
  function Clamped(t: Texture, w: int, h: int): Texture {
    (x: int, y: int) => t(ClampInt(x, 0, w - 1), ClampInt(y, 0, h - 1))
  }

  /** The texel that pixel x samples when n texels are drawn over m pixels. */
  function Scaled(x: int, n: int, m: int): int
    requires m > 0
  {
    ((2 * x + 1) * n) / (2 * m)
  }

  /** The texels sampled are inside. */
  lemma ScaledIsInside(x: int, n: int, m: int)
    requires 0 <= x < m && n > 0
    ensures 0 <= Scaled(x, n, m) < n
  {
    var a, d := (2 * x + 1) * n, 2 * m;
    Product(2 * x + 1, n);
    Product(d - (2 * x + 1), n);
    assert (d - (2 * x + 1)) * n == n * d - a;
    Quotient(a, d, 0);
    Quotient(a, d, n);
  }

  /** At the same size each pixel samples its own texel, at half the size every second one. */
  lemma ScaledByHalf(x: int, m: int)
    requires 0 <= x < m
    ensures Scaled(x, m, m) == x && Scaled(x, 2 * m, m) == 2 * x + 1
  {
    var d := 2 * m;
    assert (2 * x + 1) * m == x * d + m;
    Remainder(x, d, m);
    Remainder(2 * x + 1, d, 0);
  }

  /** The same when half the size is rounded down. */
  lemma ScaledByLessThanHalf(x: int, n: int)
    requires 0 <= x < n / 2
    ensures Scaled(x, n, n / 2) == 2 * x + 1
  {
    var m := n / 2;
    if n == 2 * m {
      ScaledByHalf(x, m);
    } else {
      assert (2 * x + 1) * n == (2 * x + 1) * (2 * m) + (2 * x + 1);
      Remainder(2 * x + 1, 2 * m, 2 * x + 1);
    }
  }

  lemma Remainder(q: int, d: int, r: int)
    requires d > 0 && 0 <= r < d
    ensures (q * d + r) / d == q
  {
    Quotient(q * d + r, d, q);
    Quotient(q * d + r, d, q + 1);
  }

  lemma Product(a: int, b: int)
    requires a > 0 && b > 0
    ensures a * b > 0
  {
  }

  lemma Scale(a: int, b: int, d: int)
    requires a <= b && d > 0
    ensures a * d <= b * d
  {
  }

  lemma Quotient(a: int, d: int, q: int)
    requires d > 0
    ensures q * d <= a ==> q <= a / d
    ensures a < q * d ==> a / d < q
  {
    var r := a / d;
    assert a == r * d + a % d;
    if r < q {
      Scale(r + 1, q, d);
      assert (r + 1) * d == r * d + d;
    } else {
      Scale(q, r, d);
    }
  }

  /** A picture after w by h pixels were sent to it, from row `top` on. */
  function Pasted(before: Texture, picture: Texture, top: int, w: int, h: int): Texture {
    (x: int, y: int) => if 0 <= x < w && top <= y < top + h then picture(x, y - top) else before(x, y)
  }

  /** A draw reads none of what it writes, and stays inside the texture it writes. */
  ghost predicate Clean(d: Draw, dims: map<Handle, Dims>) {
    d.target !in d.sources && d.target in dims && 0 <= d.w <= dims[d.target].0 && 0 <= d.h <= dims[d.target].1
  }

  /** The size each texture is created with. */
  function SizeOf(r: Role, width: int, height: int): Dims {
    var padHeight := height + 64;
    match r
    case Sub2Ref | Sub2Avg => (Half(width), Half(padHeight))
    case Sub4Ref | Sub4Avg => (Half(Half(width)), Half(Half(padHeight)))
    case Bad | Bad2 => (Half(Half(Half(width))), Half(Half(Half(padHeight))))
    case InU | InV => (width / 2, padHeight / 2)
    case _ => (width, padHeight)
  }

  ghost function RoleNamed(names: map<Role, Handle>, h: Handle): Role
    requires h in names.Values
  {
    var r :| r in names && names[r] == h; r
  }

  /** The tunable globals. */
  datatype Settings = Settings(
    lumaContrast: real, chromaContrast: real, sceneThresh: nat, contrastThresh: real, radius: int, blockBadThresh: real,
    delay: nat, correctThresh: real, ppThresh: real, sharpen: real)

  predicate Sane(s: Settings) {
    s.correctThresh > 0.0 && s.ppThresh > 0.0
  }

  class Textures {
    const width: int
    const height: int
    const padHeight := height + 64
    const sub2Width := Half(width)
    const sub2Height := Half(padHeight)
    const sub4Width := Half(sub2Width)
    const sub4Height := Half(sub2Height)
    const vecWidth := Half(sub4Width)
    const vecHeight := Half(sub4Height)
    var id: map<Role, Handle>
    var store: map<Handle, Texture>
    ghost const dims: map<Handle, Dims>
    ghost var owner: map<Handle, Role>
    ghost var draws: seq<Draw>

    /** cg_enable and createTextures: the driver hands out distinct names, and nothing is known
        about what new textures hold. */
    constructor (x: int, y: int, names: map<Role, Handle>, blank: map<Handle, Texture>)
      requires x > 0 && y > 0
      requires forall r: Role :: r in names && names[r] in blank
      requires forall a, b: Role | names[a] == names[b] :: a == b
      ensures Valid() && width == x && height == y && id == names && store == blank && draws == []
    {
      width, height, id, store, draws := x, y, names, blank, [];
      dims := map h | h in names.Values :: SizeOf(RoleNamed(names, h), x, y);
      owner := map h | h in names.Values :: RoleNamed(names, h);
    }

    function DimsOf(r: Role): Dims {
      SizeOf(r, width, height)
    }

    ghost predicate Named(r: Role)
      reads this`id, this`store, this`owner
    {
      && r in id && id[r] in store && id[r] in dims && dims[id[r]] == DimsOf(r)
      && id[r] in owner && owner[id[r]] == r
    }

    /** Every handle names a texture of its own and of the size it was created for, and all draws
        so far were clean. */
    ghost predicate Valid()
      reads this
    {
      && width > 0 && height > 0
      && (forall r: Role :: Named(r))
      && (forall d | d in draws :: Clean(d, dims))
    }

    function Id(r: Role): Handle
      requires Valid()
      reads this
    {
      assert Named(r);
      id[r]
    }

    /** The picture a handle stands for. */
    function Held(r: Role): Texture
      requires Valid()
      reads this
    {
      assert Named(r);
      store[id[r]]
    }

    /** All handles other than these name the textures they named, and these hold what they held. */
    twostate predicate Only(changed: set<Role>)
      reads this
      requires old(Valid()) && Valid()
    {
      forall r: Role | r !in changed :: Id(r) == old(Id(r)) && Held(r) == old(Held(r))
    }

    /** One quad. */
    method DrawTo(target: Handle, ghost sources: set<Handle>, shade: Texture, w: int, h: int)
      requires Valid() && target in store && Clean(Draw(target, sources, w, h), dims)
      modifies this`store, this`draws
      ensures Valid() && draws == old(draws) + [Draw(target, sources, w, h)]
      ensures store == old(store)[target := Painted(old(store)[target], shade, w, h)]
    {
      store := store[target := Painted(store[target], shade, w, h)];
      draws := draws + [Draw(target, sources, w, h)];
      forall r: Role ensures Named(r) {
        assert old(Named(r));
      }
    }

    /** glTexSubImage2D: sends part of a picture. */
    method Upload(target: Role, picture: Texture, top: int, w: int, h: int)
      requires Valid() && 0 <= w <= DimsOf(target).0 && 0 <= top && 0 <= h && top + h <= DimsOf(target).1
      modifies this`store
      ensures Valid() && Only({target}) && Id(target) == old(Id(target))
      ensures Held(target) == Pasted(old(Held(target)), picture, top, w, h)
    {
      assert Named(target);
      store := store[id[target] := Pasted(store[id[target]], picture, top, w, h)];
      forall r: Role ensures Named(r) && (r != target ==> id[r] != id[target]) {
        assert old(Named(r));
      }
    }

    lemma SizesFit()
      requires Valid()
      ensures 0 < vecWidth <= sub4Width <= sub2Width <= width
      ensures 0 < vecHeight <= sub4Height <= sub2Height <= padHeight
    {
    }

    lemma Distinct(a: Role, b: Role)
      requires Valid() && a != b
      ensures Id(a) != Id(b)
    {
      assert Named(a) && Named(b);
    }

    /** The textures some handles name. */
    function Names(roles: set<Role>): set<Handle>
      requires Valid()
      reads this
    {
      set r | r in roles :: Id(r)
    }

    /** A draw that is given up when it would read what it writes, as far as the code checks. It
        never is given up, because no two handles name the same texture. */
    method Render(target: Role, sources: set<Role>, unchecked: set<Role>, shade: Texture, w: int, h: int)
      requires Valid() && target !in sources && target !in unchecked
      requires 0 <= w <= DimsOf(target).0 && 0 <= h <= DimsOf(target).1
      modifies this`store, this`draws
      ensures Valid() && Only({target}) && Id(target) == old(Id(target))
      ensures Held(target) == Painted(old(Held(target)), shade, w, h)
      ensures draws == old(draws) + [Draw(Id(target), Names(sources + unchecked), w, h)]
    {
      assert Named(target);
      forall r: Role | r != target ensures Id(r) != Id(target) {
        Distinct(r, target);
      }
      if Id(target) in Names(sources) {
        return;
      }
      DrawTo(Id(target), Names(sources + unchecked), shade, w, h);
      assert Names(sources + unchecked) == old(Names(sources + unchecked));
    }

    /** Two handles trade names. */
    method Swap(a: Role, b: Role)
      requires Valid() && DimsOf(a) == DimsOf(b)
      modifies this`id, this`owner
      ensures Valid() && Only({a, b}) && Held(a) == old(Held(b)) && Held(b) == old(Held(a))
    {
      assert Named(a) && Named(b);
      owner := owner[id[a] := b][id[b] := a];
      id := id[a := id[b]][b := id[a]];
      forall r: Role ensures Named(r) && (r != a && r != b ==> id[r] == old(id[r])) {
        assert old(Named(r));
      }
    }

    /** decimate_add and decimate_add_vector: one pixel for each two by two. What is sampled at odd
        sizes is not part of this model. */
    method Decimate(target: Role, source: Role, shade: Texture, w: int, h: int)
      requires Valid() && target != source
      requires w >= 0 && Half(w) <= DimsOf(target).0 && h >= 0 && Half(h) <= DimsOf(target).1
      modifies this`store, this`draws
      ensures Valid() && Only({target}) && Id(target) == old(Id(target))
      ensures w % 2 == 0 && h % 2 == 0 ==> Held(target) == Painted(old(Held(target)), shade, w / 2, h / 2)
    {
      var picture := shade;
      if w % 2 != 0 || h % 2 != 0 {
        picture := *;
      }
      Render(target, {source}, {}, picture, Half(w), Half(h));
    }
  }
}
