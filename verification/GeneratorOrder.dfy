/** The order of the generator: N * G is the point at infinity. The proof walks the bits of N
    from the top, doubling and adding or subtracting G, with the slope of every step written
    out; each part of the walk is eight steps. A walk that checks carries multiples of a point to
    multiples of it, over any odd prime. */
module GeneratorOrder {
  import opened NumberTheory
  import opened Secp256k1

  /** The point (x, y) is k * g. */
  ghost predicate Multiple(k: nat, x: int, y: int, g: Point, m: int)
    requires m >= 2
  {
    TimesMod(k, g, m) == Affine(x, y)
  }

  /** A finite point of the curve over an odd prime, with an associative addition. */
  ghost predicate Group(g: Point, m: int) {
    IsPrime(m) && m % 2 == 1 && AssociativeMod(B, m) && OnCurveMod(g, B, m) && g.Affine? && 0 < g.y
  }

  // ----- one step, over any prime modulus -----

  /** A number that solves the slope's equation is the slope _ec_add computes. */
  lemma SlopeUnique(num: int, den: int, lam: int, m: int)
    requires IsPrime(m) && den % m != 0 && 0 <= lam < m && (lam * den - num) % m == 0
    ensures num * Inv(den, m) % m == lam
  {
    var s := num * Inv(den, m) % m;
    SlopeSolves(num, den, m);
    CongDiff(lam * den, num, m);
    assert den * s == s * den && den * lam == lam * den;
    Cancel(den, s, lam, m);
    SmallMod(s, m);
    SmallMod(lam, m);
  }

  lemma Ordinate(lam: int, x1: int, y1: int, sum: int, x3: int, y3: int, m: int)
    requires m >= 2 && 0 <= x3 < m && 0 <= y3 < m
    requires (lam * lam - sum - x3) % m == 0 && (lam * (x1 - x3) - y1 - y3) % m == 0
    ensures (lam * lam - sum) % m == x3 && (lam * (x1 - x3) - y1) % m == y3
  {
    CongDiff(lam * lam - sum, x3, m);
    CongDiff(lam * (x1 - x3) - y1, y3, m);
    SmallMod(x3, m);
    SmallMod(y3, m);
  }

  lemma Doubled(x: int, y: int, lam: int, x3: int, y3: int, m: int)
    requires IsPrime(m) && (2 * y) % m != 0 && 0 <= lam < m && 0 <= x3 < m && 0 <= y3 < m
    requires (lam * (2 * y) - 3 * x * x) % m == 0
    requires (lam * lam - (x + x) - x3) % m == 0 && (lam * (x - x3) - y - y3) % m == 0
    ensures AddMod(Affine(x, y), Affine(x, y), m) == Affine(x3, y3)
  {
    hide IsPrime, Inv;
    SlopeUnique(3 * x * x, 2 * y, lam, m);
    Ordinate(lam, x, y, x + x, x3, y3, m);
    assert y + y == 2 * y;
  }

  lemma Summed(x1: int, y1: int, x2: int, y2: int, lam: int, x3: int, y3: int, m: int)
    requires IsPrime(m) && x1 != x2 && (x2 - x1) % m != 0 && 0 <= lam < m && 0 <= x3 < m && 0 <= y3 < m
    requires (lam * (x2 - x1) - (y2 - y1)) % m == 0
    requires (lam * lam - (x1 + x2) - x3) % m == 0 && (lam * (x1 - x3) - y1 - y3) % m == 0
    ensures AddMod(Affine(x1, y1), Affine(x2, y2), m) == Affine(x3, y3)
  {
    hide IsPrime, Inv;
    var d := (x2 - x1) % m;
    ModMod(x2 - x1, m);
    CongDiff(lam * (x2 - x1), y2 - y1, m);
    CongMul(lam, lam, d, x2 - x1, m);
    CongDiff(lam * d, y2 - y1, m);
    SlopeUnique(y2 - y1, d, lam, m);
    Ordinate(lam, x1, y1, x1 + x2, x3, y3, m);
  }

  // ----- one step of the walk -----

  lemma TwiceNonzero(y: int, m: int)
    requires m % 2 == 1 && 0 < y < m
    ensures (2 * y) % m != 0
  {
    if 2 * y < m { SmallMod(2 * y, m); } else { SmallMod(2 * y - m, m); AddMultiple(2 * y - m, 1, m); }
  }

  /** Doubling (x, y) gives (x3, y3): the slope and the quotients of its three equations by m. */
  predicate DoubleStep(x: int, y: int, lam: int, q1: int, q2: int, q3: int, x3: int, y3: int, m: int) {
    && 0 < y < m && 0 <= lam < m && 0 <= x3 < m && 0 <= y3 < m
    && lam * (2 * y) - 3 * x * x == q1 * m
    && lam * lam - (x + x) - x3 == q2 * m && lam * (x - x3) - y - y3 == q3 * m
  }

  /** Adding (gx, gy), which is g or its opposite, to (x, y) gives (x3, y3). */
  predicate SumStep(x: int, y: int, gx: int, gy: int, lam: int, q1: int, q2: int, q3: int, x3: int, y3: int, m: int) {
    && x != gx && 0 <= x < m && 0 <= lam < m && 0 <= x3 < m && 0 <= y3 < m
    && lam * (gx - x) - (gy - y) == q1 * m
    && lam * lam - (x + gx) - x3 == q2 * m && lam * (x - x3) - y - y3 == q3 * m
  }

  lemma Double(k: nat, x: int, y: int, lam: int, q1: int, q2: int, q3: int, x3: int, y3: int, g: Point, m: int)
    requires Group(g, m) && Multiple(k, x, y, g, m) && DoubleStep(x, y, lam, q1, q2, q3, x3, y3, m)
    ensures Multiple(2 * k, x3, y3, g, m)
  {
    hide AddMod, TimesMod, OnCurveMod, IsPrime, AssociativeMod;
    TwiceNonzero(y, m);
    MultipleOf(q1, m);
    MultipleOf(q2, m);
    MultipleOf(q3, m);
    TimesAdd(k, k, g, B, m);
    Doubled(x, y, lam, x3, y3, m);
    assert k + k == 2 * k;
  }

  lemma Sum(x: int, y: int, gx: int, gy: int, lam: int, q1: int, q2: int, q3: int, x3: int, y3: int, m: int)
    requires IsPrime(m) && 0 <= gx < m && SumStep(x, y, gx, gy, lam, q1, q2, q3, x3, y3, m)
    ensures AddMod(Affine(x, y), Affine(gx, gy), m) == Affine(x3, y3)
  {
    DistinctResidues(x, gx, m);
    MultipleOf(q1, m);
    MultipleOf(q2, m);
    MultipleOf(q3, m);
    Summed(x, y, gx, gy, lam, x3, y3, m);
  }

  lemma OneMore(k: nat, x: int, y: int, lam: int, q1: int, q2: int, q3: int, x3: int, y3: int, g: Point, m: int)
    requires Group(g, m) && Multiple(k, x, y, g, m) && SumStep(x, y, g.x, g.y, lam, q1, q2, q3, x3, y3, m)
    ensures Multiple(k + 1, x3, y3, g, m)
  {
    InRange(g, m);
    hide AddMod, TimesMod, OnCurveMod, IsPrime, AssociativeMod, SumStep;
    TimesAdd(k, 1, g, B, m);
    TimesOne(g, m);
    Sum(x, y, g.x, g.y, lam, q1, q2, q3, x3, y3, m);
  }

  lemma OneLess(k: nat, x: int, y: int, lam: int, q1: int, q2: int, q3: int, x3: int, y3: int, g: Point, m: int)
    requires Group(g, m) && k > 0 && Multiple(k, x, y, g, m) && SumStep(x, y, g.x, m - g.y, lam, q1, q2, q3, x3, y3, m)
    ensures Multiple(k - 1, x3, y3, g, m)
  {
    InRange(g, m);
    hide AddMod, TimesMod, OnCurveMod, IsPrime, AssociativeMod, SumStep;
    TakenOff(k - 1, g, m);
    Sum(x, y, g.x, m - g.y, lam, q1, q2, q3, x3, y3, m);
  }

  lemma InRange(g: Point, m: int)
    requires Group(g, m)
    ensures g.Affine? && 0 <= g.x < m && 0 < g.y < m
  {}

  /** Subtracting g again. */
  lemma TakenOff(n: nat, g: Point, m: int)
    requires Group(g, m)
    ensures AddMod(TimesMod(n + 1, g, m), Affine(g.x, m - g.y), m) == TimesMod(n, g, m)
  {
    Opposite(g, m);
    hide AddMod, TimesMod, OnCurveMod, IsPrime, AssociativeMod;
    TimesOnCurve(n, g, B, m);
    TimesAdd(n, 1, g, B, m);
    TimesOne(g, m);
    Associate(TimesMod(n, g, m), g, Affine(g.x, m - g.y), B, m);
    AddInfinity(TimesMod(n, g, m), m);
  }

  lemma Opposite(g: Point, m: int)
    requires Group(g, m)
    ensures OnCurveMod(Affine(g.x, m - g.y), B, m) && AddMod(g, Affine(g.x, m - g.y), m) == Infinity
  {
    InRange(g, m);
    SmallMod(m - g.y, m);
    NegateOnCurve(g, B, m);
  }

  /** One step before the last multiple, the point is the opposite of g. */
  lemma LastStep(n: nat, g: Point, m: int)
    requires Group(g, m) && Multiple(n, g.x, m - g.y, g, m)
    ensures TimesMod(n + 1, g, m) == Infinity
  {
    Opposite(g, m);
    hide AddMod, TimesMod, OnCurveMod, IsPrime, AssociativeMod;
    TimesAdd(n, 1, g, B, m);
    TimesOne(g, m);
    AddCommutes(Affine(g.x, m - g.y), g, B, m);
  }

  // ----- the walk -----

  /** Steps from a point: the slope, the three quotients and the point it leads to, and the rest. */
  datatype Walk =
    | Here
    | Twice(lam: int, q1: int, q2: int, q3: int, x: int, y: int, rest: Walk)
    | Plus(lam: int, q1: int, q2: int, q3: int, x: int, y: int, rest: Walk)
    | Minus(lam: int, q1: int, q2: int, q3: int, x: int, y: int, rest: Walk)

  datatype Stop = Stop(k: nat, x: int, y: int) | Wrong

  /** Where the walk leads from (x, y) and what becomes of the scalar, if every step checks. */
  function Carry(w: Walk, k: nat, x: int, y: int, gx: int, gy: int, m: int): Stop {
    match w
    case Here => Stop(k, x, y)
    case Twice(lam, q1, q2, q3, x3, y3, rest) =>
      if DoubleStep(x, y, lam, q1, q2, q3, x3, y3, m) then Carry(rest, 2 * k, x3, y3, gx, gy, m) else Wrong
    case Plus(lam, q1, q2, q3, x3, y3, rest) =>
      if SumStep(x, y, gx, gy, lam, q1, q2, q3, x3, y3, m) then Carry(rest, k + 1, x3, y3, gx, gy, m) else Wrong
    case Minus(lam, q1, q2, q3, x3, y3, rest) =>
      if k > 0 && SumStep(x, y, gx, m - gy, lam, q1, q2, q3, x3, y3, m) then Carry(rest, k - 1, x3, y3, gx, gy, m) else Wrong
  }

  /** The walk w leads from the stop s to the stop t. */
  predicate Leads(w: Walk, s: Stop, t: Stop, gx: int, gy: int, m: int) {
    s.Stop? && t.Stop? && Carry(w, s.k, s.x, s.y, gx, gy, m) == t
  }

  /** A stop whose point is the scalar's multiple. */
  ghost predicate Right(s: Stop, g: Point, m: int)
    requires m >= 2
  {
    s.Stop? && Multiple(s.k, s.x, s.y, g, m)
  }

  lemma {:induction false} CarrySound(w: Walk, k: nat, x: int, y: int, g: Point, m: int)
    requires Group(g, m) && Multiple(k, x, y, g, m)
    ensures var s := Carry(w, k, x, y, g.x, g.y, m); s.Stop? ==> Multiple(s.k, s.x, s.y, g, m)
  {
    hide Group, Multiple, DoubleStep, SumStep;
    assert g.Affine? by { InRange(g, m); }
    match w
    case Here =>
    case Twice(lam, q1, q2, q3, x3, y3, rest) =>
      if DoubleStep(x, y, lam, q1, q2, q3, x3, y3, m) {
        Double(k, x, y, lam, q1, q2, q3, x3, y3, g, m);
        CarrySound(rest, 2 * k, x3, y3, g, m);
      }
    case Plus(lam, q1, q2, q3, x3, y3, rest) =>
      if SumStep(x, y, g.x, g.y, lam, q1, q2, q3, x3, y3, m) {
        OneMore(k, x, y, lam, q1, q2, q3, x3, y3, g, m);
        CarrySound(rest, k + 1, x3, y3, g, m);
      }
    case Minus(lam, q1, q2, q3, x3, y3, rest) =>
      if k > 0 && SumStep(x, y, g.x, m - g.y, lam, q1, q2, q3, x3, y3, m) {
        OneLess(k, x, y, lam, q1, q2, q3, x3, y3, g, m);
        CarrySound(rest, k - 1, x3, y3, g, m);
      }
  }

  lemma LeadsRight(w: Walk, s: Stop, t: Stop, g: Point, m: int)
    requires Group(g, m) && Right(s, g, m) && Leads(w, s, t, g.x, g.y, m)
    ensures Right(t, g, m)
  {
    hide Group, Multiple, Carry;
    CarrySound(w, s.k, s.x, s.y, g, m);
  }

  // ----- the walk of N, in digits -----

  function Gx(): int {
    0x79BE667EF9DCBBAC55A06295CE870B07029BFCDB2DCE28D959F2815B16F81798
  }

  function Gy(): int {
    0x483ADA7726A3C4655DA4FBFC0E1108A8FD17B448A68554199C47D08FFB10D4B8
  }

  function Prime(): int {
    0xFFFFFFFFFFFFFFFFFFFFFFFFFFFFFFFFFFFFFFFFFFFFFFFFFFFFFFFEFFFFFC2F
  }

  function Stop0(): Stop {
    Stop(1, Gx(), Gy())
  }

  function Walk1(): Walk {
    Twice(0xCB35B28428101A303EB9D1235992AC63F58857C2F631EE6936D3AEBBEDDCD1B1, -0x3B04FBED296CC1277F1659AB9A6F3FEBA665D74E98725EE2D39E827BC28878B0,
      0xA14E3460FEBE2C2316BFCCCC1B764790C3B7D9FF92663EA740240F16B583E774, -0x3C8B95972F12B04B3CA25330B2BD449E8E938229D1FD14F76CAE42249CE0DC11,
      0xC6047F9441ED7D6D3045406E95C07CD85C778E4B8CEF3CA7ABAC09B95C709EE5, 0x1AE168FEA63DC339A3C58419466CEAEEF7F632653266D0E1236431A950CFE52A,
    Twice(0x6AD2CB95963C033328D4857D4F8711DEFF557DD9FAAA673B400442833F0EFB64, -0x1B511F0C4ACACDDB11995426B44BECF23D1A165EAC933B36C0DAE7F6C721D3035,
      0x2C933E2A83BAC0C704D83956CE68E1A07920F532E04E27FF098C8C712D51733D, -0xCC0862604F39A0C08E4CE0B1D06B205A54268B6C11E626473E3A3A21A84DCFC,
      0xE493DBF1C10D80F3581E4904930B1404CC6C13900EE0758474FA94ABE8C4CD13, 0x51ED993EA0D455B75642E2098EA51448D967AE33BFBDFE40CFE97BDC47739922,
    Twice(0x9693023FB325CC6C7BC993EB684358EA623D5FEEA8FF351DF662BEABD0EFDC6D, -0x203E697A2FF0B71F15BBE8E0B1128A2612545720E641A25D3F0DA1B92BA257869,
      0x58909B0E3B1D179E26D093A041C3E56B0E5FCD45C4D389144042C9DCFCEC275E, 0x6ACBCA9638108E08374E790D2F8FB746C0F38F81A62038C77ABFDADB56826EBC,
      0x2F01E5E15CCA351DAFF3843FB70F3C2F0A1BDD05E5AF888A67784EF3E10A2A01, 0x5C4DA8A741539949293D082A132D13B4C2E213D6BA5B7617B5DA2CB76CBDE904,
    Twice(0xBC380350880AB969E653D334691CA8C2DA83B2ACDE59E7439ED92D96A9654A07, 0x6DD55CCE46F1224CD99F821EA3A2F0A9EBE970A9B8CE11AC81430DC918B68ADB,
      0x8A62511FBB16418A37F7A5EAD3F099487B15785E66A133E078848957EEC143EB, -0x8696444C9F994992FB103911D7EFC9D6AF6D7BA29B92732DF8EC73823BB24FDC,
      0xE60FCE93B59E9EC53011AABC21C23E97B2A31369B87A5AE9C44EE89E2A6DEC0A, 0xF7E3507399E595929DB99F34F57937101296891E44D23F0BE1F32CCE69616821,
    Twice(0xB68C9CB56C4F0FD3279F2DEC6ACAE3FFBACFB8384548D24892D676CD6BEACBF5, -0x10AB9B201128EBE909E6B37287520FD58164CF175E3DECAF3A10F957CE0BFA99E,
      0x822C3C0DBC5C7D8C3C32320B58378C5C160825393D62371CE9FA174521D13E00, 0xD9690ECF0B9571B77CC0887EE3BF9FC63A5C7330CFFAD04355FAEAC0E641F21,
      0xD30199D74FB5A22D47B6E054E2F378CEDACFFCB89904A61D75D0DBD407143E65, 0x95038D9D0AE3D5C3B3D6DEC9E98380651F760CC364ED819605B3FF1F24106AB9,
    Twice(0x57AAAE4151A198790E40EB37FE0DAD5ED4D4581B1A82C40124B58AC767ED1EC4, -0x1A3B3CCFCC7443B593002CAEA6E5CC086509C6BCE8BC4354465C8E5F864C2E02D,
      0x1E05743C4AD91BE301D2B36FAFDB42772DE829193A4A9E64F4882F9890335C35, 0x6CDA36C32ABC46E74112F34DB81C84C8EEDE3927BB247626DF1E0BDEA815270,
      0xBF23C1542D16EAB70B1051EAF832823CFC4C6F1DCDBAFD81E37918E6F874EF8B, 0x5CB3866FC33003737AD928A0BA5392E4C522FC54811E2F784DC37EFE66831D9F,
    Twice(0x875978642D00B859133774FEC1878F9E7623F6DF9C734F7ED297E920A77B4406, -0x14A1CFA9FEA71DE68E71E2BA70B5D638C74F6DD5926C1A65B4B1EA2D5127C49B9,
      0x478F7C3E95BC1E51FD80A25EDFC36FF0EB8D5523F1EE56A882E1AA48E6DDCD40, 0x49098A07B728AAAFAFF50D946BF2D2A513AA2FA43789F3E06840D7EA9BC98E5B,
      0x34FF3BE4033F7A06696C3D09F7D1671CBCF55CD700535655647077456769A24E, 0x5D9D11623A236C553F6619D89832098C55DF16C3E8F8B6818491067A73CC2F1A,
    Twice(0xF0D3817330010DB820C7710C8EE17A157984F4BFD3BAFBD4A49079EFD7754990, 0x8F3723C85FF3164DB3A07559B4963E07950769FD94B7A173E978889B3444BC4C,
      0xE28D41769F5865AB14C24658822FC9961AEADB95B0BFE9FE782F4A0EFECE7B64, -0x48EAC5C2254E673B8F140471C905697727CF02E9FFF1852FAD4E9E3E0CD660E7,
      0x8282263212C609D9EA2A6E3E172DE238D8C39CABD5AC1CA10646E23FD5F51508, 0x11F8A8098557DFE45E8256E830B60ACE62D613AC2F7B17BED31B6EAFF6E26CAF,
    Here))))))))
  }

  function Stop1(): Stop {
    Stop(0x100, 0x8282263212C609D9EA2A6E3E172DE238D8C39CABD5AC1CA10646E23FD5F51508,
      0x11F8A8098557DFE45E8256E830B60ACE62D613AC2F7B17BED31B6EAFF6E26CAF)
  }

  lemma Part1()
    ensures Leads(Walk1(), Stop0(), Stop1(), Gx(), Gy(), Prime())
  {}

  function Walk2(): Walk {
    Twice(0xED7816FE6CA3E42058B150C9EEAC31EF8A6BDA7EE9E51A0EC33E09F96AFC74BC, -0xA6420F67637BB25071E77CE944474FE9DF3CFBCFC86659791D17EBCD2533BDC8,
      0xDC4792E8A5BE0591B11466A7B249CBA8F2A33A30C8468E1F561A5045057941BD, 0x37D37953FB0FA4BD1DA2E0C78A3D18E7906EA3D2BBF400F5C11966075D72B11F,
      0x465370B287A79FF3905A857A9CF918D50ADBC968D9E159D0926E2C00EF34A24D, 0x35E531B38368C082A4AF8BDAFDEEC2C1588E09B215D37A10A2F8FB20B33887F4,
    Twice(0x62F219D148D24EFF34FE56735390098E29B6A2190DAA3DC0FBD1D33B92531A49, -0x104BCC3D6C16AAA6E41DE7CD3A7F9DF365FE8717877572D43F3D2EBBC048B91D,
      0x263E40B90E093D69CE9CB94F331276DFCA50FDD5D52899F82B416E3F11684268, 0xD38110E4317D0EC08C09FFD9CAEBCA5FDBC0A7CE9F3C36D91BE61730894D5D3,
      0x241FEBB8E23CBD77D664A18F66AD6240AAEC6ECDC813B088D5B901B2E285131F, 0x513378D9FF94F8D3D6C420BD13981DF8CD50FD0FBD0CB5AFABB3E66F2750026D,
    Twice(0xDA8EABC70379E66AE8E505F49DEB2E1B4906022DEF4C45EC320E33AED7091903, 0x7B5B31118E706A6F8D21E90C3E5EA4663C618A515ED94CB62815179AF21E1BA5,
      0xBA974C11F5F6F104F4A38F0164419677E70A8DC4D1E0C492B7E51BCD3A94D1C6, -0x30A64C00FF8A9A57AE5268B8915895FFDC90BCC50A5F4835A3176AA1164C157A,
      0x5D1BDB4EA172FA79FCE4CC2983D8F8D9FC318B85F423DE0DEDCB63069B920471, 0x2843826779379E2E794BB99438A2265679EB1E9996C56E7B70330666F7B83103,
    Twice(0x6C49014B33417076ABAADC7958F95908E93DD2886468BD7D27D61CEF7C1FDFDD, -0x4387D42D834CE77C2BDFBB0B5C3CAC71A4050B08B24C228CA392B55EBCD59C9B,
      0x2DCDADE930241EB3DA0207E1A22E90F4E54B1654EF831673A369C13514D214B2, 0x1D7FF2DD811340B382FDC822936038D852438A2146B088D8AB34010335A40240,
      0x175E159F728B865A72F99CC6C6FC846DE0B93833FD2222ED73FCE5B551E5B739, 0xD3506E0D9E3C79EBA4EF97A51FF71F5EACB5955ADD24345C6EFA6FFEE9FED695,
    Twice(0xCA43B3AB114E7C697FEE873576D7B89F909E0592F9E805E00246C31200FB967B, 0x1478493006042606EBAF3A073842EC13860FE45DC5DB3CDF4018312111FEE64D5,
      0x9FCEE97180F397EF7F1EA6A9AF040C9DA7112C47F135895F18340817B5F96AFF, -0x21DCDD8EFD150C268BEDE9C019716BBFA25AA10B288F800C3643785B508BA348,
      0x423A013F03FF32D7A5FFBCC8E139C62130FDFEB5C6DA121BCE78049E46BC47D6, 0xB91AE00FE1E1D970A1179F7BBAF6B3C7720D8EC3524F009ED1236E6D8B548A34,
    Twice(0x1B5D9CDFBD96D7EAF397653B120ED6CB0F4BD05BF004F79C2A9FD0BCDF4929BC, -0xBD2D5B4B69B8EAE1DF0BFC0AC9EC40498DEBEFFEDA634D668B3379E7187A574,
      0x2ECE1528CAF03C02071834190FC18B0CEDEEA0605E73D1A35C9A08E6510E906, 0x53FF9677D1FFE6AD3A775007DDEABC1B0FF47B13574906BDB2D6D177386B2F4,
      0x111D6A45AC1FB90508907A7ABCD6877649DF662F3B3E2741302DF6F78416824A, 0x696911C478EAFFBB90D48DBFF065952F070008996DACA4CA9A111D42108E9D0,
    Twice(0x6FEDF4339B46436D0DB4E1864076FE618C51A754E1C0ED5708B889C5733613E, -0x31295687438B3691E3D17D8DAFEBB1045D575330197EC85036975CE382D6854,
      0x30F036F2D126D8F6968324FF42731EF15EEB7688F83513E3844FC2EACE0AF5, -0x18FFA9BCD5A0771EAF92F0FA74C4B5F3DC5C9F27E00CBAF762A52D5D2F19209,
      0x4A4A6DC97AC7C8B8AD795DBEBCB9DCFF7290B68A5EF74E56AB5EDDE01BCED775, 0x529911B016631E72943EF9F739C0F4571DE90CDB424742ACB2BF8F68A78DD66D,
    Twice(0xA377FFFF0B36D0535197BEAD9992FEE7698334FA5BFC270F64D511CC9AB7C03A, 0x28CF04B1CBFE92D8768178540EE817B905160AC1EEE61D1A85C9BF4546C1AD57,
      0x6862083EC76250AE5213DC10E6D2A32A6ADA8D51E30E61FF447FC6A4B31CA726, 0xCCD96B79F4C0B76F998C898D50FDA9757E88F96DD1D6B7ECF22CB0BB98CE214,
      0x363D90D447B00C9C99CEAC05B6262EE053441C7E55552FFE526BAD8F83FF4640, 0x4E273ADFC732221953B445397F3363145B9A89008199ECB62003C7F3BEE9DE9,
    Here))))))))
  }

  function Stop2(): Stop {
    Stop(0x10000, 0x363D90D447B00C9C99CEAC05B6262EE053441C7E55552FFE526BAD8F83FF4640,
      0x4E273ADFC732221953B445397F3363145B9A89008199ECB62003C7F3BEE9DE9)
  }

  lemma Part2()
    ensures Leads(Walk2(), Stop1(), Stop2(), Gx(), Gy(), Prime())
  {}

  function Walk3(): Walk {
    Twice(0xBE610814DE113647213FFF8FC6378B31333E2BAC4AC437FF9A702A6734563C9, -0x2205DA3DA20D2694587A87007F1B0ADFFC57375F6010372238068EEB7D646242,
      0x8D942CC619B325313DF8FA55E5C71316B73C92E0C7EBBB2DF4D2261A408AF0, -0x104313706E420E07202194031D638C56D395896464C74366718EAFF086645CE,
      0x4C1B9866ED9A7E9B553973C6C93B02BF0B62FB012EDFB59DD2712A5CAF92C541, 0xC1F792D320BE8A0F7FBCB753CE56E69CC652EAD7E43EB1AD72C4F3FDC68FE020,
    Twice(0x92EBB512788E5C3C7A3BAF1FEAF8281104D50976AEF98BBAC62A97BE2D8B7A7B, 0x9AC262009B89C175CBD678A06FD84F5402C686A24698D987284ACA6056EFF453,
      0x5451B38F017ED660CDACC050A98F48958C36DAAE31D09E1AEAFAD0BE1C77641A, -0x3275E7B129800AED4A29E992243F38AC08A7AE21B931F0BB29F8348A56722D47,
      0xA4083877BA83B12B529A2F3C0780B54E3233EDBC1A28F135E0C8F28CBEAAF3D1, 0x40E9F612FEEFBC79B8BF83D69361B3E22001E7576ED1EF90B12B534DF0B254B9,
    Twice(0x9B0F855EB9BE64F095AA255167F0F0BAF01B2CD3CC72EF8F1444747071666278, -0xECAC6ACDF617A12C0FC3CAB2CF7B069A048C3961FE6344FB5E0E0A7396F6DAFD,
      0x5DEBCC719B81E297ECE66ACF5C5CD90C3479AA2D47D460E8E685A54E458B6BDC, -0x26A27B95AAF6D1C9E9DD930D18C059DA3DAE6BC39E15846556D58318A76CE85,
      0xA804C641D28CC0B53A4E3E1A2F56C86F6E0D880A454203B98CD3DB5A7940D33A, 0x95BE83252B2FA6D03DEC2842C16047E81AF18CA89CF736A943CE95FA6D46967A,
    Twice(0xC95C70EFFEE378EE51D4695A7E30804DB90A8FDFCCA618C180CEC3EC5C83B500, -0x5F417DE978A22EDFA469E24DEA0573F9085DFC70F76D02F457FD2960ED6EC854,
      0x9E624ABA3C93476A1C1EE0CB1425AC0E200806A56469FA72C409926DB514D680, 0x1697F14E3CFDD54BFC46C4B390E76F70DBF980D8C8D01B56F162416B83C20EB0,
      0x8B4B5F165DF3C2BE8C6244B5B745638843E4A781A15BCD1B69F79A55DFFDF80C, 0x4AAD0A6F68D308B4B3FBD7813AB0DA04F9E336546162EE56B3EFF0C65FD4FD36,
    Twice(0xEC7E64A924B93BBE0B71CB15729FF63848D6104AE7D55A16ED4A41D45B8FE684, -0x5968060BE05E4550A107807A5D46FF6EF624D4321CAD7992E1BA5DBAD1798600,
      0xDA7947FF19CA40EF6CAF0B245130593D7386691FE132793106E05A3DCA8183E6, -0x5A4E2D67463497086E8F4A0565B68EED5403CB63EE254077874028156D100D63,
      0xED0C5CE4E13291718CE17C7EC83C611071AF64EE417C997ABB3F26714755E4BE, 0x221A9FC7BC2345BDBF3DAD7F5A7EA68049D93925763DDAB163F9FA6EA07BF42F,
    Twice(0x4A97F998B50E69D9B7F9C654687B8490E7F4A168B22EE05F0491F67C5BCAE6B4, -0x27E9FCB816F540970A38EFB8F3BB1794B7B6EC1B1546063D8AFD671A732062D4C,
      0x15BC3684AE2C578048480C3CBE2205AFDEEEFC3A383C1028DDB1105441B292E7, -0x40B14E41637F2B157C565D83E2950266C9F2B651777595E52FEFA5006B9AF2D,
      0xFAECB013C44CE694B3B15C3F83F1FAE8E53254566E0552CED4B6E6C807CEC8AB, 0xCC09B5E90E9ECB57FC2E02C6EC2FB13D9C32B286B85E2E2E8981DFD9AB155070,
    Twice(0xC0B764BF04AE63359BEB2B4FC6F722F47DA0482483379A58CA50AFF8C2EA4869, -0x1AEA680DB6DA70879FDF3FE19077A44C6C265CC2A38BA6A90464722C97C4D0825,
      0x91139A7FB7C410527A5580E2A973ED19DE91A4C86CEEFC4DF3C5D842DC61FF7C, 0xB591A58DC639CC68EE6B80D560BC0B59536BEB3A30AB739AB716F9C10557BE5C,
      0x9BB8A132DCAD2F2C8731A0B37CBCAFDB3B2DD824F23CD3E07F64EAE9AD1B1F7, 0x945BB2B2AFEEE3B9B6F9DD284F863E850F54A840F4752D5364130627C3811C80,
    Twice(0xB9F84ADDCAB19FB53A62E79564F6075B848477821DF6D6C58668D8E9B2501575, 0xD670256D7DEB08454CE883BE32981339DDC4537D27C02BED4C770DAEF2E73483,
      0x8718CD05B2926A4FA5036246D666DAAD8CA3B5A3C98E7D865DE6E8545BD1131F, -0x4BEAB7D1B16E8543048C13B33D73F80D14132747BCCA21662F6DBC1ACC88D7C2,
      0x723CBAA6E5DB996D6BF771C00BD548C7B700DBFFA6C0E77BCB6115925232FCDA, 0x96E867B5595CC498A921137488824D6E2660A0653779494801DC069D9EB39F5F,
    Here))))))))
  }

  function Stop3(): Stop {
    Stop(0x1000000, 0x723CBAA6E5DB996D6BF771C00BD548C7B700DBFFA6C0E77BCB6115925232FCDA,
      0x96E867B5595CC498A921137488824D6E2660A0653779494801DC069D9EB39F5F)
  }

  lemma Part3()
    ensures Leads(Walk3(), Stop2(), Stop3(), Gx(), Gy(), Prime())
  {}

  function Walk4(): Walk {
    Twice(0xC985B179CAA5BEE0EF6ACEFC42C0DEC227B196C5DBD0953CC43C5868392E7CD3, 0x54A823A57DA8AF30A8BE0434766AE1AFC6D78EB92734CC2507B3E0F6EFC1A7B2,
      0x9EA3368323CE7A1FF0B9F641CE3C90557704DF763321E14B45E35824EAAE12A0, 0x14B4404B5CEB4C2C32FF2F4C679F8AC58AEE29F289033D697669B1C2566E3A7E,
      0x57EFA786437B744D343D7DC45773A3C62D240A43079849071FD383D60CA030D5, 0xD712DB0BD1B48518893627C928DE03EC689B6D2AE5E9974AB07AB44274B02F9E,
    Twice(0xA6D04E5B19577537DB75701165CC1AA476CBDC92CB167D90AF93B785D698742E, 0xBDAC29B962115EA33A0A115AE783FC7DEE05691E6AB124BF8C407A598878B073,
      0x6CB2CF1D90E23DFF3D7E7E640C92991E4765D6B76B6F46CEC27537B1A8C3894B, 0x2058AE474ACAD1D6BA1A83B0A8025EFA6CDF880696DE36BF4A6899E681506C7F,
      0x264BBD436A28BC42A2DF7E9CD5226CB91080577E327B012A7FAFC7770C584DD5, 0xD87C6FA94EE093B4D4F75CE24C33BE226A118243717B8D8DE61227937704AB11,
    Twice(0x4479D94C2F98166B4C1D24655334F9BAB459CB5A6C074F1E9BB5B9EA97B6A18B, 0x62A078ADF0CF64E9F1A14EC0AE8D3742C3DE95D9C8838D3019F9614BAE96E625,
      0x1250F56F9BC0090A5305D836DC51E3FE9F40680EC79AFBED8FA63C9E881374C9, -0x230A8719BE6D755DEB0A1A8AA993F98DA9304D2C9426822F51AE76BF78C5EE8A,
      0xA94C6524BD40D2BBDAC85C056236A79DA78BC61FD5BDEC9D2BF26BD84B2438E8, 0xB5201FD992F96280FD79219505019E3A7E5D3C60A0E39B2BC2E2C8DBF18661F4,
    Twice(0xBE5AAFDEB2F0B1599D1B413E816D0AE93363953C3D97E4FD3AFED1C367F9596D, -0x4285DA49BF5468A41D4B91F6E39DC72ABB96589A72FEC0CC2E28FDEF6D45D488,
      0x8D8ABD2EB30552DDA136A12807E6FEACF10E413EA6B6B639125CA53D523CA891, -0x33A4237F1808BA9E406CEDB0A59C1AC31D3B27A8E9E005C420D5745315312A79,
      0xEEBFA4D493BEBF98BA5FEEC812C2D3B50947961237A919839A533ECA0E7DD7FA, 0x5D9A8CA3970EF0F269EE7EDAF178089D9AE4CDC3A711F712DDFD4FDAE1DE8999,
    Twice(0xA6A6F72A0273AA6F7B6276E647117F1C0E9F5561A551C6238EC167BA7AC03635, -0x2221C2A4666307762F95D1F4688E7AB60F2529DB6FE40017C62077045982A178E,
      0x6C7CF56FF44B46A99D74C57DA41CE0F9BD2448B3A952547FD63066ED6EF96778, 0x76E50A9BEF7676950E7D97600E37B41148CB63027B6939B7B770F18E36E8CC6D,
      0x381C4AD7A7A97BFDA61C6031C118495FC4EA4BC08F6766D676BEE90847D297FD, 0x936AF53B238EEEE48F3E5FA709915ECCF0451032DB939C0093ACE3187D493FC5,
    Twice(0x8DEE3EFCCEC9FBD528BCBDFC380D106F09AB41277D36C65ED6C4DC4784EA857A, 0x7E9109F1AB6D237B52C6233D46453E5890E4548AF0E459F783E8CBE2A48509A7,
      0x4EB04F1BA95A6CCAA9E464453058399CBA2C109870EB3BDAA97B0C93F41DD782, -0x5E27807737148C8A1D60E704012CF7D449C4F154ACDA8F41F0893AF414939B9E,
      0xE1EFB9CD05ADC63BCCE10831D9538C479CF1D05FEFDD08B2448D70422EDE454C, 0xECB4530D8AF9BE7B0154C1FFE477123464E3244A7A2D4C6AD9FD233A8913797,
    Twice(0xDB3E8EC5D990EC59421E6569D96DCDAECB7F725432C5A4DDB78439AFBFE5554F, -0x23CDECBED11CCA3538EA823A592DE789C524BF2AB7AF7D8E95A246C2D91901BE2,
      0xBBC4178FF9B36CD88A81D1AFC5474C5DC2E536B9E0F0ACC77F9B2426666E05EB, 0x7A549E0377C36BEA062B4B76D3A56084838CB9C1278F396E189F824C9006482C,
      0x5318F9B1A2697010C5AC235E9AF475A8C7E5419F33D47B18D33FEEB329EB99A4, 0xF44CCFEB4BEDA4195772D93AEBB405E8A41F2B40D1E3EC652C726EEEFE91F92D,
    Twice(0xF18FAD968CB987ADC7D7C35FC6AD8974A3FCF82A55E9400E7BF3015E6B558A5, -0x341AEF8155267225B84F83C1129EB67F111F4DE69D22CF122D1C900099807232,
      0xE3EFD578D8DB5B76BE90D381DBA2ABB6F39F69EF7B3C3E43D78758F5AD0F6F, 0x3F41C31F9C9C69FFF2B320DBD3594391FD551F32BAD14B8B9969D4A7703A652,
      0x100F44DA696E71672791D0A09B7BDE459F1215A29B3C03BFEFD7835B39A48DB0, 0xCDD9E13192A00B772EC8F3300C090666B7FF4A18FF5195AC0FBD5CD62BC65A09,
    Here))))))))
  }

  function Stop4(): Stop {
    Stop(0x100000000, 0x100F44DA696E71672791D0A09B7BDE459F1215A29B3C03BFEFD7835B39A48DB0,
      0xCDD9E13192A00B772EC8F3300C090666B7FF4A18FF5195AC0FBD5CD62BC65A09)
  }

  lemma Part4()
    ensures Leads(Walk4(), Stop3(), Stop4(), Gx(), Gy(), Prime())
  {}

  function Walk5(): Walk {
    Twice(0x82CD82212AE9DBF4101C8671A40DE941C0BC39B23359C41063B171FE4CBF7C6A, 0xCF560C624E549B7B75C9DFE917C089BB70899EEB05CE5C35FF039911533569CC,
      0x42D55D235AD9F1CFC01EED52110F1F6251A63FE8D72FCE0A0C99268CA0D158E2, -0x3F589D84DF18F008B2EAAFCEAB870480909EF201D86300EAC81C1653B4F4D953,
      0x8C0989F2CEB5C771A8415DFF2B4C4199D8D9C8F9237D08084B05284F1E4DF706, 0xFB4DBD044F432034FFD2172CB9DC966C60DE6BF5156511AA736AC5A35D72FA98,
    Twice(0xC5AB93DAE7B4D1D3C5EDFE8BC49FA6BA5566B166494B830B6CF082231FE99F39, 0x9E47335685A3F69DE417A2BE480CA26797FC0CF14AE2C708DAF4104A53F423FC,
      0x98A1848DC472F7C95A311A1583FDBE2A681EAF83C027ACCE20C6A2FD8B6AABD8, -0x561C82CCB1289B0635CF65B3E76959CD0F84037300F8739A0E392C864CE97894,
      0xFB8F153C5E266704C4A481743262C0259C528539BC95BC1BB1E63C33DC47BFFD, 0x6CA27A9DC5E0621816FA11D9B4BCCD531DDE1389AC542613090A45DDD949B095,
    Twice(0xDE12036F73E80356F7DB91954E2CA46C56DCAB93EC4EFDA7FA9E72B8B3A2B20A, -0x2291C946A0BF46F28FD1DEB7521DCF764A2A4477DA8A6E9C92DB5A80B433CC639,
      0xC0A33F39C8BE7FA875DCDFDFB2C1D4E07C369CA29F61911A3E83C7EC9D02D330, 0x1197C34C8CA378D5A7CB32A416AF77900517029730AF857795A7BC9553B386FD,
      0xE747333FD75D51755A0CC9F0A728708465A02C587737A7B8B8FA1B8B4BB2629A, 0xF2AFFE0145070C114CC43603804C2581C88376AA6E1A969A9F8D961A6946F6D6,
    Twice(0xEAAF7C28DAE8DFA52783D0B7EF5EBC91AA999F58DB631588E00A05856DBEF4CD, -0xB5DE42807EF7FAEAC174CACD6B51F3C6388E61583093B9E142B6E7AC72C56BD0,
      0xD7254745AC449DD26CA852670E7B2165DC0442973B7DEB7F559E4B0A505818B8, 0x5BE88F160C3DA00C5E65CC0EFA23D8963F62F994E28B4ABF41C99126F8C597A,
      0xE1031BE262C7ED1B1DC9227A4A04C017A77F8D4464F3B3852C8ACDE6E534FD2D, 0x9D7061928940405E6BB6A4176597535AF292DD419E1CED79A44F18F29456A00D,
    Twice(0x27923DD35874B9D0C3E1B1930352C0C3B0D91412F38FA8C1341F5A73BEB4F8B9, -0x220A74733606E362E6D838E91131CB2614A5F6F517FB18D013D79EFC2A7D9A2DF,
      0x61DE260F8F2DC641D5671FE3E19DD05802B6D4D77E5D2DDDEEB5C649563D2CF, -0x30C020183634C80539172DE50A073A35681439960889802EE4BE6E4A2F2B74F,
      0xF4B93F224C8089EAB9F95DCD0F29B2C9028A6AC5DE94D85784E27E36A95C8356, 0xA67A92EC062962DFB0E5F6A7A40EEE90C37EF1344915609ABD5861B9BE001FD3,
    Twice(0xD8880A7AE61955A53B91EF1D5DE7F4B9646AFD475EDBBC8974911329E12FBDCD, -0x1A4352B65422C6D32A060E95804F8CE58A213F8EB6200B203B728DD1BAC4469A2,
      0xB725D9FA874D106BEDBDA11A8968671EB7E0704BE7BA270241A962B6CB63427D, 0xC6B0383FE88D628A967A4B3374DDF9C6A4CE776F9360CD6DE8B8F97F19C9A2CB,
      0x9D1ACA1FCE55236B19622EA025B08B0D51E8512F97E696C20D62FE17B160E8A, 0x1153188F5101F0C63E56692CE0D8C27E6FE9E0EE9212B5E534E050C57CA04C44,
    Twice(0x8676B3EAE525414B100A173E847E521F75A5C46AE628B3858B1C1FBCBC59DAF7, 0x1111D10E821E5A493E5805935A47A2AF94DA445396B2FBE4B738F49F9018EDB4,
      0x46A07B6442E092AC94835B868A5632A799C50B21501075739B6B332DF56E0475, -0x63106A7D28ABDDD6DA9A1EFA65C57DD78D6BE6B1DEFEA936BBE46A3EE2B464FE,
      0xC66C59CC454C2B9E18A2AD793821CDE7518B3A93BFC39562E97D7D0475BA7FC2, 0xD9592FE2BFB30FCFBEA4F3CEAAC10CB2F00A60DDB15955977EC3C69CF75F5956,
    Twice(0xF53ADE417A0D913B3B9E411781E6E8DE0FF1A6B169CA912FE5495F51C90530D8, -0x2CFAAED409E0AA6B343AB3719D3271B797DEBDE12EFA2A4D581DE574A278BBD4,
      0xEAE9BAF2CA3EE68FEBEB56EBC3C7B4F1D50B6434542093974B6EF659254CD8E1, -0x361DA5AE59FE7FE77B0926417CDB13048A8813258C1E0F999CB3919E9F7828BA,
      0xFEEA6CAE46D55B530AC2839F143BD7EC5CF8B266A41D6AF52D5E688D9094696D, 0xE57C6B6C97DCE1BAB06E4E12BF3ECD5C981C8957CC41442D3155DEBF18090088,
    Here))))))))
  }

  function Stop5(): Stop {
    Stop(0x10000000000, 0xFEEA6CAE46D55B530AC2839F143BD7EC5CF8B266A41D6AF52D5E688D9094696D,
      0xE57C6B6C97DCE1BAB06E4E12BF3ECD5C981C8957CC41442D3155DEBF18090088)
  }

  lemma Part5()
    ensures Leads(Walk5(), Stop4(), Stop5(), Gx(), Gy(), Prime())
  {}

  function Walk6(): Walk {
    Twice(0x32F78AA8DA44CBC85C1D785FB24F0E7F0DA8EC5386523D436BB3A50D1E52FB8C, -0x29E21AA577E947FF1D8D971661E2BD7A327DE2391F4B7C74D8CCD45B7389E2D75,
      0xA25A186D2328B0CE0B5FBBA78509FA09884C4AE0FDDBAC11B1AA91B1691E2B2, 0x236BD082730989C579C4A37FB62F2F63AF147F2E4461EC910DC75E9264298F56,
      0x4D000B621ADB87E1C53261AF9DB2E179141ECAE0B331A1870AA4040AEE752B08, 0x6A0D5B8F18E0D255CB6D825582D972CCCB7DF5F119C7293A3E72851F48302CEA,
    Twice(0x2C5EDB78F874848D89CEB49FA59A1FF38BA3A6605F567CA67BB74A6E78C097D7, -0x20B7E56B8B52477C8ED413DCE38272D418486B06ACE054219D3B6E662580768C,
      0x7B0BE977E66B5633878A63700E4B8D365B2A30E773CF37429F64AA0E34CB30E, -0x667DF3881C4E829712DBCE3F84444604B9CAFB317016B42F06919A510CFC757,
      0x71F570CA203DA05DD6AA262114717128D657A0403E1F1B77F89962FD475C58EF, 0xEB42415B95DC880DD25557345BC95B8DF2445D00C3363E7DF8649A72D35D420E,
    Twice(0xDEBCD686B581F6645F94A93467D0ECDF9E4AD7EDEEDCFEED57D9D6364C78D427, 0x10132324AA38DE45CBE6B9C79593A1E65702CA96F433C7554D533A3090F641DEF,
      0xC1CC0F5D6C6D7C8FC5E1011431013040E05AC70F323F7C05374F90BAB2337266, -0x2A6C6D453241D117AD08179952492E90264F7D9473E67C781F7BE0CDF2B1C4EA,
      0xA2B7B3629F7BD253B7D282B5C21DA01446B4821DC65E76516048B06043FF8359, 0x693038941695122D57A937A3F71E29C910D10835046F3835A2397FECFE86FEC2,
    Twice(0x81751B61F3B4AD7169D8AC62378ADC14043339E3A60078FA2BF394C804C26E20, -0xCBE432F6B2C45B68FA24ADAFB3022C0C99F595D65DB68931D41B776847576B1D,
      0x41773B2AC212A8D589D8FAD82440BC210DC692DE71F45C5818E6B1E5DC2750F3, -0x1C2924335FC07896590A25980BC056369203E56969626F062D6635CC3910A351,
      0xDA67A91D91049CDCB367BE4BE6FFCA3CFEED657D808583DE33FA978BC1EC6CB1, 0x9BACAA35481642BC41F463F7EC9780E5DEC7ADC508F740A17E9EA8E27A68BE1D,
    Twice(0xEA6EC05C50822815AF2653E43C1ADABB3BE24E602591C72373D731CC1A44A051, -0x111DFC880AE94AF33E82C7217A6FA69125215107A19A2AED7006F49A271B0D487,
      0xD6AEA792A30DBB2F49D387D7012C0513C57B94CE194C58854DB63D45FEDA9D6A, 0x80D2DCFC2FC561A802A26C9C240641B035BF2336438BB709D86F03CFF162C158,
      0x4DBACD365FA1EF587C0C0CFAAF00D8718BBD9F35CCEA5A835EE3CC821FE741C9, 0x16C3540E8A51892E7FDCFD59E838299D0CC384A09FC0535F60BE10F8338EB623,
    Twice(0xE60635D4ED2D254E05003B55D58BD309CCE50B703F8DBF6D4700A65D85559A25, -0x1DE5A17FD7679964F07F1944ED01D28B68944E555C146D2592809E0FDE5599BB,
      0xCEAF28E12B7A187450995CF3FCD0E783FC8EB49EB8ACCD328B04975B09A395A3, 0x340890367B61B8BA95FCBA53DEFFC80B83227FC04A4B632558DF4810F42317E1,
      0x13D1FFC481509BEEE68F17D8FF41C2590F4C85F15268605087EDA8BAB4E218DA, 0x6008391FA991961DCECB9337B1B758BDA4AD01206D5BD127E0DB419DDB191C19,
    Twice(0x7471BC58C865F770A22BCB1E2465507731B3AD17D19C55C851A736531FEFAFAE, 0x52C23FA572C43B1C14356C9B4ABED3B19310BE38C0E4535B4A62AD4DE4EC89F0,
      0x34F74538468FD762AACDE1999D76CAF70FC377458FBA5B941D568C22034084A8, -0x645582EEF0E567CA1B23F150258A06773EEDD9BA6437D82B180BD819976CE7C,
      0x219B4F9CEF6C60007659C79C45B0533B3CC9D916CE29DBFF133B40CAA2E96DB8, 0x24D9C605D959EFEAF5A44180C0372A6E394F8AC53E90576527DF01A78D3B6BC7,
    Twice(0xC84B8BB00E0F4407E49FE1BE00895DCA6D817C8CE64CFEBB5D67625411BDE644, 0x2C6DCAFA73FE6C863E18F27415E11F0AB9BA17F5EAD495848D7366326283C088,
      0x9CB6208E3B58BF961B7D8FE1092825FFA19CD2B916C610AA6A7313977FBF2720, -0x27162613A3C0140EA4B269DAAA2B56DD1F7FF207A7BB1BEA44A274970F419C81,
      0x53904FAA0B334CDDA6E000935EF22151EC08D0F7BB11069F57545CCC1A37B7C0, 0x5BC087D0BC80106D88C9ECCAC20D3C1C13999981E14434699DCB096B022771C8,
    Here))))))))
  }

  function Stop6(): Stop {
    Stop(0x1000000000000, 0x53904FAA0B334CDDA6E000935EF22151EC08D0F7BB11069F57545CCC1A37B7C0,
      0x5BC087D0BC80106D88C9ECCAC20D3C1C13999981E14434699DCB096B022771C8)
  }

  lemma Part6()
    ensures Leads(Walk6(), Stop5(), Stop6(), Gx(), Gy(), Prime())
  {}

  function Walk7(): Walk {
    Twice(0xDFADA4B2106CAC4951EC538F3D828576D57426EBE0D870D5E091E5B044AA5639, 0x4E8135DD97FD642AFB502064D179B174938CB3A12874597604BDA1DC3A95C1F0,
      0xC36FFAB63B3C27EEACBDBD94308385DBFAD275BBF2F1EFD2EEDB3FFFCC4111F8, 0x47932449E2339287A45B7F4534A5C3A4BECD9324390B6D64352AB68CE281BF60,
      0x1A575AF9D4146753CF991196316995D2A6EE7AAAD0F85AD57CD0F1F38A47CA9, 0x3038F1CB8AB20DC3CC55FC52E1BB8698BDB93C5D9F4D7EA667C5DF2E77EBCDB7,
    Twice(0x51EE9A34EEAD0AD899A54439D004A42A2F3FA11BE3C4773C1DC6457062E3572B, 0x1ED5CB67FB111B420892C7D794C43BA44634D2984517AA30B6A4507E332580E9,
      0x1A38DBF8965904B741D77A73193F95C44915F3D0CA8DCA55C236D04790D2C834, -0x4E2F8DFDBE4482843E5875FB8E0B3DBD85FDB7D0CC825F5DA186D116B6813611,
      0xF5F0E0437621D439CA71F5C1B76155D6D3A61A83D3C20C6EE309D755E315565B, 0x6B9F4E62BE5A052BF62189160DF7101AA5BF61BF3ED7E40A678430AFDD2ECC82,
    Twice(0x602C9992D00CC6030985312C38033BCA60CE74F3A25777862A7288488389CDC1, -0x273F7D5064C2720AC1A414D7548049CAAB349431925507DAA8FAEC262D62DDEA9,
      0x24217AF342A1E9C7948569EA3AD2A67FD008EB2226F76E30D454B42EFB1C69E8, 0x268E0B9937FCACD68C0C1C4220F48E9CF647BA267CBB99F84BCACEF3E4F9DB49,
      0x8F506F0B6C0B6E9A57A7F36D970CA4E347CBC92146227642CBE781D9F5362D33, 0x469F955D2AFA61719530C5424F1C336848CF925D43BB8EAF30487D0C87FA243F,
    Twice(0x2CAED624594A3483AD98859BEF75A97ED7CC509BD906BB2B23FBF9FBE4E5004F, -0xD8098D8F20BF73BCFC1DE03569FC924641A242782FA4F6BE9FF64262DE27FCB7,
      0x7CC91044B3BAD5DF27C028D022A69BED3D1281C2DE52A6B318E9E6A1142CC8C, 0x251D0FE794F8D9F24D5C2A5C5FB106E6CAF8F1728F8BB3D028AE73606FB385,
      0x8E7BCD0BD35983A7719CCA7764CA906779B53A043A9B8BCAEFF959F43AD86047, 0x10B7770B2A3DA4B3940310420CA9514579E88E2E47FD68B3EA10047E8460372A,
    Twice(0xFF486A88AC95151D852A5270924D4CCF1FFF7B676398E499D324893A4BBB576C, -0xCC91C5C267B4B96691E7CF29FD9F24BD6E72B42858154531A50D2BB846FEAECD,
      0xFE9158B861078BCFF820C4E06D10D88EEA026D7AA3EFEB8B7EE641E481C7381F, 0x5A875717B25FA1D6C1D69018948F0778A17A8CD36ECBEBE11028151D97C1E25A,
      0x33B35BAA195E729DC350F319996950DF3BC15B8D3D0389E777D2808BF13F0351, 0xA58A0185640ABF87F9464036248D52BCAA6560EFBC889B702BC503CCCB8D7418,
    Twice(0x8309B9CD7CAF364F8A4726B848E574837A1498176583CD38A99BBF35C27C0E01, 0x8A24F50091D51CFACD01D4B39C8EE1D3D28D93A1D9C94C30A017FDB44CA5C743,
      0x4312F486E4E8B90D62F2B067F9B3F3B73F94AAB58FCCB4D380346AA3FF7E4127, -0x1D83C47D4BCF751CED405A6580F5150665620F03DD61BDC852DC2DDFA812A69,
      0x374DEEAE22C93F955CB83AD2071F7E2256F6E109CAD7BCA6D71DC7B24414BB36, 0x171165B64FCD4F9916032C06F806F7293828D66300E543217875BEA98DAF734A,
    Twice(0xC3A088DA9A740FBEF9A36DC94890489302DBF3A200C6AAD18428714F41D62EF0, -0x964D7C0FB3A0610B8BF527CE126416D45F897AFA14E91A383F9F70C46B7454,
      0x957DF52861B6DFD75A9C9798B98626BDE391B0C5B90EF9472194D803F02A3DE2, 0xF21B4EA23C0A54711C056BE16EC206DE776D55A92758318971889262A449824,
      0x2380C09C7F3AEAE57C46E07395AEB0DC944DBAF2B62A9F0C5E8A64AD6AE7D616, 0x6F8E86193464956AF1598AEFD509B09A93AF92148F8467560099BE48161BBC1A,
    Twice(0x9A1BB41D1A00D1B60CC94B47FE3B071DD38189836C875B949A5BB1B3744D5622, 0x778A3E1C7D442D6600AEE87BAF15AEEDF8B4FBCC6A059E55E65B853398224784,
      0x5CC557B28025685B518490DC1CEA9677798E17372E8EDD638B53191021329BEA, -0xC8FE8F0E2C03D5E1F83927CE1A10E94D4B7945F42830EEB350A8E9B4FBD978B,
      0x385EED34C1CDFF21E6D0818689B81BDE71A7F4F18397E6690A841E1599C43862, 0x283BEBC3E8EA23F56701DE19E9EBF4576B304EEC2086DC8CC0458FE5542E5453,
    Here))))))))
  }

  function Stop7(): Stop {
    Stop(0x100000000000000, 0x385EED34C1CDFF21E6D0818689B81BDE71A7F4F18397E6690A841E1599C43862,
      0x283BEBC3E8EA23F56701DE19E9EBF4576B304EEC2086DC8CC0458FE5542E5453)
  }

  lemma Part7()
    ensures Leads(Walk7(), Stop6(), Stop7(), Gx(), Gy(), Prime())
  {}

  function Walk8(): Walk {
    Twice(0x738FD7BBBE9AFD0E286FA67C1B3D9D1D4306CF1D91327714EB87D7E6678BCDB6, -0xE9F45B5861C8EB322816215DBB69B91E08621F30BF8FE981838E55950241F8,
      0x342A8CA566CB1459C78B64608F14D738C23E82811DB5A1C8489D717DAA1A9B1C, -0x560903CE46813C4E69DF99656D7A6D1B5BB48C0264D487FD1602A44DC2FA2DFF,
      0xF6F622083DAF54800456BE134D5F67D147C82642BEFC1CE2DC83A27078F2827C, 0x1BCD4E817DE73A0FAF2C5715B367CEE7E657CA7448321BF6D15B20B520AAA102,
    Twice(0x245DF8C5A6AD254B4C4C56C0D969CACD2EA321B08B1ED4D55515F34D582F7420, -0x2C2D3BADF9CF50512A306A0DA6CA9829624D1CB705114C135E6E45237AA7E6B50,
      0x52A9076483B57D3B16D330DAEFDDBD5DB18784245246DF99E34CE690067744E, -0x986537A1AA744A19C5CDBB7707F824B84564A6A6154D1BF65FD4189B09B3DB,
      0xFB26E5188F953DE2BD70CB3C3D1FC255CD91C3CE7D8C6F369D893209715ADCB6, 0xF3E128811012A34D58E846A719D0176916D2CB31B8B7AB5449DBCA3B58BA68F3,
    Twice(0xB51B78655A4E5A25C8C18DD20190B5571B736E586729FE907B550841E1B6724F, -0x18A1F274BAFF4637BFE39B9B6E94360DB2F1E8C4F81CCC2D4A6C123CE56D27A6E,
      0x801FDB31EFB304CA480BC8C25E1EC286258E204764701F3EC770B0BE640185D9, 0x505B12E8199FF30ED1CAB364979A6FBCA2A0E1BC86331565093F6DEBB7F2C43C,
      0x8991225911B9132D28F5C6BC763CEAB7D18C37060E8BD1D7ED44DB7560788C1E, 0xDA8B4D987CC9AC9B27B8763559B136FA36969C84FDEF9E11635C42228E8F0EF1,
    Twice(0x2E95BD430CB40948C3E3069BB698EFDADA1D87AC3D902F2D55129E9CBDB660D4, -0x8E3C41F27BE5DFBE684C1952181225ACC1F1F91D7E5D7CDE19B4612886B02DDC,
      0x87A2799F4898F3A71AD4975487FD7ADE180A320D2011A7099B2311FC750AAE3, 0x17C391A61AE98DB2EC4CF0D503DAC84B4DF753D5AFFAAB28C1C82A190B6FEBB5,
      0x6F9D9B803ECF191637C73A4413DFA180FDDF84A5947FBC9C606ED86C3FAC3A7, 0x7C80C68E603059BA69B8E2A30E45C4D47EA4DD2F5C281002D86890603A842160,
    Twice(0x61FF0B09E723C8829EB256B349701C992867DA5BABB9246B4E80F4A06A7739AA, 0x5EBFAB968388FFA23571A2645339B5336BF455B29BD2BF3E2DE7CB9AB06CDFE3,
      0x258344747F5D717B94EC38AB3DFA5BC7509B96F83781ECE63CF8650A6F7648E7, -0x402361C9A6AE590B7BF32FCE7B86297ED20307D6544C327B28EC6FE54F348C68,
      0xAE86EEEA252B411C1CDC36C284482939DA1745E5A7E4DA175C9D22744B7FD72D, 0x19E993C9707302F962AB0ACE589FF0E98D9211551472F7282334CB7A4EEE38BC,
    Twice(0x3172C36F49857E7E10D1B5927BF54091D80521D6B2EB92A8998B92CBB2234DE1, -0x15AF07584B8D0470396317CA0AF1921DB2A9E2791A48F12AF26C43CA570BFBD2D,
      0x98D22433E754FB3204C68FA6D78511BA8CF057378E3FD2C9657F5F1A47FD5D9, 0x1B16C3CEE6975E5E8AD7DA433CC95724FD295F9F0CB01E6D0F59DAAF06A3A636,
      0x2248C9F90BBFFF55E61D2F8C56DC2C488718BE75CF36F2EE7A1474267C169290, 0xFA0594692D21EED7A506BB55B435BA18E163750235DA2BE2369D8A12883EA257,
    Twice(0xC3C8B71E8454AFD4FE4AE23209D6947BBFDB44F29F3474CBF6E1DE6BFD9974AD, 0x170A64F768D64A28EEEE5661C4BDD2402D7053FA868E4D86AF6A90B185707A74A,
      0x95BB645720446D0593D6946BD4E5D290331303F95F60BA7CA5889FE27ED623FA, -0x91EF4C498BC6E95CB76CCE220A85977AA1B79B8076CE978FFFF8BDCCAA5EA7AA,
      0xE11A6E16E05C44074AC11B48D94085D0A99F0877DD1C6F76FD0DAC4BB50964E3, 0x87D6065B87A2D430E1AD5E2596F0AF2417ADC6E138318C6F767FBF8B0682BFC8,
    Twice(0xC781A37BD88A0BAA945A25DCBEC891A96EAB33936F3AE33B924C4EBB9CCC91E1, -0x17E1617A998721B0182E8FAA597FD0DF72B0AA18451FB93E3499B06939E9694A5,
      0x9B7ACDD0B5DDCAEC8B3956AD22B3C12965ED319B036ECD085C022FBD8C16D722, 0x879391A45A6A3CE01B8DE5E3671728C369C513AD0938529A31AED63F43F6E762,
      0x3322D401243C4E2582A2147C104D6ECBF774D163DB0F5E5313B7E0E742D0E6BD, 0x56E70797E9664EF5BFB019BC4DDAF9B72805F63EA2873AF624F3A2E96C28B2A0,
    Here))))))))
  }

  function Stop8(): Stop {
    Stop(0x10000000000000000, 0x3322D401243C4E2582A2147C104D6ECBF774D163DB0F5E5313B7E0E742D0E6BD,
      0x56E70797E9664EF5BFB019BC4DDAF9B72805F63EA2873AF624F3A2E96C28B2A0)
  }

  lemma Part8()
    ensures Leads(Walk8(), Stop7(), Stop8(), Gx(), Gy(), Prime())
  {}

  function Walk9(): Walk {
    Twice(0x5E1C71FB55E898F6E64912DECE2B8A3D031F1EAEE2AF6F37EBD48CA94C1A3624, 0x214049DF73C3E469B36EA795D8CDC91D96A79C41BFCFFF8C51BCCBC9C6D19DAB,
      0x2298E6DDB4D173CFB11A3E3565ECD08617CD4E3FDE4156FE4EC749CB7D361F0C, -0x21173658927B8FCDB889B30BE48ED09AD3915586D139D93FB6988AB3DB2CA320,
      0x8D26200250CEBDAE120EF31B04C80CD50D4CDDC8EADBCF29FC696D32C0ADE462, 0xEBED3BB4715BF437D31F6F2DC3EE36BA1D4AFB4E72678B3AD8E0A8B90F26470C,
    Twice(0x5ADEBA52EE6AC0E141FFB884EFA7A7D9A940B9950373647C8AAEF60DD14E763C, -0x41FBB9F43245552045B46931E5FCE4A9AE98247C9A71531F67F237CE163CD4D4,
      0x20415CC9FF152E15A3CBD49E8199B645F4D2AF5E36FA89310B868F6F6BC94F37, 0x2BA266E852BD863C2132869ADC2E3957FB154665A692D453097F9073D408957D,
      0x1238C0766EAEBEA9CE4068A1F594D03B8ED4930D072D9C8B9164643E1516E633, 0x8A9DB02DBB271359D6C979E2D1C3DC170946252DCC74022805CDB728C77B7805,
    Twice(0xA478DD7BFCB0FE45115C6952FEBA38F9DE0842736B164666C083B48C9AC6CB1, 0x73DB7E66067CA1DA1FCCB9B2842E63896D50BAB74547B53395F15F8A3860BC1,
      0x69AB14D73F9EFA0D418332E3E686D8A5D1A8A621CF092BA2C45E7560056F7B, -0xD6C5040D13867F170281DC10A1F3D77088B9FF7FF920103A26AF32BCCB05C1,
      0x271D5B0770CB9C15E7B2EA758A6A11B9CDDCD7282B0EC21619B01552788E7A66, 0x5D3AA45834E7F491E457D09949AC877FE2A065E3508A824E7A8D7258E03C9727,
    Twice(0x104F2AA37E05BE6ADD58D281A2334816593555F014CE643F702814EC1391F5A4, -0x60CE18345D1DE1BAA9B2177F33623A3B7323E5CD991EE5699BB7E0AE5E54C4C,
      0x109FDCFC7C28D1C7D74EB6B542A00D2640AE6BEA152B38BE697E6D17388360F, -0x601C59352EECCE7E0BB7240508863F7B4E242A4BBACC5DB463C9BC2730D966F,
      0x85672C7D2DE0B7DA2BD1770D89665868741B3F9AF7643397721D74D28134AB83, 0x7C481B9B5B43B2EB6374049BFA62C2E5E77F17FCC5298F44C8E3094F790313A6,
    Twice(0xAD98AE499F8B968DACFAF69097DB01061DEECDD4B8B7FE434720AAF6131A6FC1, -0x27FF65426EFF22DF724D7E2FEBFC45A9C0225B6E4EB7E52C5BD330E830D1E361,
      0x75B7B69EEFB8494C65BBC056DA836C4543F165A10E791E0537EA9954448B458A, 0x21F9B2A89118EA0D45A65194C51595DB9B838D9B7182B971CE361908F6544BDE,
      0x534CCF6B740F9EC036C1861215C8A61F3B89EA46DF2E6D96998B90BC1F17FC25, 0xD5715CB09C8B2DDB462AE3DD32D543550AE3D277BFDD28DDD71C7F6ECFE86E76,
    Twice(0xE3B8C91DDD9155986DEA06E85CAADE56B09B179572444C1C2007FD77D04D6F0, -0x3994FDD73316B2C082ED4B0F770CE3E3DE6B03D9E0AAD7DAE386FC41664B4025,
      0xCA913A0CAFDE282189260A17A94BD4DFCA930A780B357608432D78A95CC000, -0x4C55A80726CBB8DF592223354FB49C6B09A932E937C4847958DAC8A81ED0489,
      0xA91D1F5CEE87B7F3081E142018F8AAED79020D47ECFBC8D2C7170923E8BEE8B6, 0x748A324EE2DF8EE15A7189C8DDDAD3B2F800569F628CB225003D16AA410644C1,
    Twice(0x6D5074103E91FDCFA4597E9B5C32B822C19B5AF92207EB477C72EC4F9DCCCB6B, -0xEB9F7547CF28CE81A3475B55B813BAE3EE055B181075E93AF8C52657899E350A,
      0x2EAD9C1E940E271DA349DED728010972EEF16FFF1C729A7484BB1F847A213C77, -0xA5AA020F731F7BF5A0C75450ECAD692C5B4A3953B570BF7585DF7449C7200C5,
      0xC15C8C23D90C8E35C1A214DDE2D4383C0735AE45BEF61F10AA1A1C255984CF74, 0x2BA954D828522235C8DC6F45E25FD7BA47BF772D50B015A2C4A48CD839CCB000,
    Twice(0xB0486ABB58D31B2DC9704B8502170A38DC4139987DB4802A1661A40D857824D, -0x1B263EDC42A10EDA7B5FD85CC0FEF21C361CB0D58CA086E8E1A35FB11F6B4F950,
      0x7963A73DD003EAC7F479277BF12348C61F9105686EF60ABEF6BA1E3008B079, 0x7EC1AF00B1912D4727FE724B5073603D918D3BB13B482F3A86F407E2677B2F7,
      0x948BF809B1988A46B06C9F1919413B10F9226C60F668832FFD959AF60C82A0A, 0x53A562856DCB6646DC6B74C5D1C3418C6D4DFF08C97CD2BED4CB7F88D8C8E589,
    Here))))))))
  }

  function Stop9(): Stop {
    Stop(0x1000000000000000000, 0x948BF809B1988A46B06C9F1919413B10F9226C60F668832FFD959AF60C82A0A,
      0x53A562856DCB6646DC6B74C5D1C3418C6D4DFF08C97CD2BED4CB7F88D8C8E589)
  }

  lemma Part9()
    ensures Leads(Walk9(), Stop8(), Stop9(), Gx(), Gy(), Prime())
  {}

  function Walk10(): Walk {
    Twice(0xE6D9FA3E6518D4E9723DEA425CF89CF627C6B2258BB185785B0F3D91B04E6115, 0x95D908869A9615836CCA1796F817C40B7D16EF1EADE6AEF68AEC08F8AFF8FA12,
      0xD02C6742500DEF560CD69C8378152DCB014068BE11B433080BFAB42EA667E455, -0x1A6B9C58EA9209A6715CB6AE75BA645C574626024C4F2D2C03CA0526715E628D,
      0x26952C7F372E59360D5CE4C66291F0B6EF16C1331E825E51396EB0457E8B000A, 0xF513EA4C5800A68862BC893D2D688422DEBE398F653D67318C3D401F05EF705A,
    Twice(0xD884B65BD5B8DFCBDDA21A681B317B0BCBF4D101DEBC21A38CA7300520334D4C, 0x18D1DD4AAD1222C3D6287B31E6508AC1105FEFBF69ACBFBFC937BEF81E4B486FC,
      0xB72038878943152352503FB8AF8D7EC95859AC28CFA7D980527A486222FF17FA, -0x86FBFA2299F2E497B9FAB6C6EC4CC5072FCAC64CDBE58CE9D90178CBFC27B118,
      0xC62E58E6FC23C5BDBEF2BE8B131FF243F521196572D6B0E9F102588976134F96, 0x4397827D45B1A1678C3D676753141FC5BCFB853563731C3E82277ED4D14CF97E,
    Twice(0x9D1540C9467D3BF99EE5B77F3C9121F1A88E1886CE5C64AA196B85CF6815554E, -0x179501E9D0550D9D2468053524A232B98CB0C123751E10DDAF1D1F6FC696FF25C,
      0x6063133A91E06D9A65E78C40AE5B86DACEB88F83FCB37EDA21FD8FA92D320DB3, 0x6F8223B218E599B412B93E52C8402BCC951223626CB3AAB2D2CD3BB4E97FF868,
      0x107460520EEC5C741683329A716622B0B81C03200807DE973686F8800B188CBB, 0xABE5D4C09A21598C35326B9B9CF54A11242E0D748DCE3DA601D7B6361F272124,
    Twice(0xC48405B3038C03BD744A8ED8A5527CB83E8F1929B392D0A6967CBD721BAE0B, -0x224599A9FB5094922086D40CF6B79758DB3D2F6118EFE667268435C312AE6BD,
      0x96DA6CCFFE2A896F63714DC51E67F34B231DA646E18E744F52EC9E0501D5, -0x3EE3441655285C8C804B56DFBC5F69B449C198F42ADF1E15E7BAF796AC8AF6,
      0x6260CE7F461801C34F067CE0F02873A8F1B0E44DFC69752ACCECD819F38FD8E8, 0xBC2DA82B6FA5B571A7F09049776A1EF7ECD292238051C198C1A84E95B2B4AE17,
    Twice(0xF9BD4B25FB8787AC97EDB42B9BAC8DEB9FF7EF01B41F5D6575086F1012BF96CE, 0xFDBC52EA7FC7F6B0790C73ABD565619FDD7C6E5BCDED0EA380D3F4CEDD6FD4FC,
      0xF3A1C827EF7253102A34222EE15D034AC50087352D9054CCA4B43430D68BF7E9, -0x2299FD7FABD3B4688CE292B0BAB4E31AA4A70D73D88A0077A7E41E438F92E183,
      0x85D8DA4748AD1A73DEC8409BE84F1A1316E65C5196AAD27E0766746F3D477C2D, 0x58948B53665C6690586B536531EFC7BC94B0A02033C4D5A62079816FC7D1DD70,
    Twice(0x95B144BD0405B76F012F298CE4BF1355BCCB8671D21CDB26D904BBBEB3860CDA, -0x6A598853F5263BE2696B8497CFE9C7D985998BDD2709CCE77721C81DAEF85CF5,
      0x5787D4C426832D20D8D489FA6AA0594149B1DB21A8C61E3D4FA0B1E8A85FD55F, -0x4DD3F9AB50F50D9E311CA7778762A712CE99C5BC759C3E5F5F1D39A301F8648,
      0x8E2A7166E7EC4B968C0892E9CC3EE3EE4D1E7E100FDC47F04850312D6C0B80D9, 0xEADB0BA9AE2CBE592CEDD29B716A9D485297B688D706349A49C61F2AD6B29F50,
    Twice(0xCD97A7266946A362A966C2469BB3E45413110726A2C395C2BEA221545461DBEF, 0x8C5FBB3F12A885E4D42CC9F7D7B32451CD675B14E19DDEAE726D35F5FED4B503,
      0xA51C3B8A210E761E5720AA3151D54F5017877324EE06BC83129A84A054D5E41F, 0x12EB32B5A2B4BDC2C3055D959B8857ADA0EFE78A7D6BE733AB0858F57947FD5A,
      0x769BC75842BFF58EDC8366ECD78F8950EE4AB2E81359D90F9921FA3D2C4561BE, 0x4BF817362FE783BAC8DCE4CEF73F5D4741A177767B7873ADD5920BFFB0D9685F,
    Twice(0xE53CE2C798D39BEF6FF55175192D6B703F4DF8F610DB8E47BDA11627318A4605, -0x1CCDF346C66DC6FE0CD85E4A1E3C4E765FEAFF4F9B271347AB832D786DDAFE8A,
      0xCD45FC342DDF3DA00A1486BDA1C824A726C4618BFD4C95CDDFE037159ADB1C90, -0x62DD0864752868233CEE4A7F3D8B2480526012960780A91D721F4E4ACEEAA0DC,
      0xE5037DE0AFC1D8D43D8348414BBF4103043EC8F575BFDC432953CC8D2037FA2D, 0x4571534BAA94D3B5F9F98D09FB990BDDBD5F5B03EC481F10E0E5DC841D755BDA,
    Here))))))))
  }

  function Stop10(): Stop {
    Stop(0x100000000000000000000, 0xE5037DE0AFC1D8D43D8348414BBF4103043EC8F575BFDC432953CC8D2037FA2D,
      0x4571534BAA94D3B5F9F98D09FB990BDDBD5F5B03EC481F10E0E5DC841D755BDA)
  }

  lemma Part10()
    ensures Leads(Walk10(), Stop9(), Stop10(), Gx(), Gy(), Prime())
  {}

  function Walk11(): Walk {
    Twice(0x18B9CD189F45726E2C6DFDC2CCE38866BC945EC92113621BFAA817CE723ADF9E, -0x25933B1131466A51862CB3CA36165E6855044280169CF9FA73883D9F2BB7A6BCD,
      0x2635D4EAFC3A94784F2155984BB3E982CB923F6990750E9CE624DB8849A01B5, 0x61925B735C538043DEF17DEBD9932A9EA1EC99618A49BEEDFDB2D0C6B84ED42,
      0xA5E00DA467FD5494F40B6CF7D2D61B3EC3AB217C792A2DDB8C63C8C79E3D34EF, 0x98FE5F5E5608555421726FE99BF43D25B60DCFE790900ACB855C5CE2F7ADB4C,
    Twice(0xBCBA2313F29E1D97551BF61072F2A6F583D17EF9378AC65A6A5A28639887BEB1, -0x134567F8F42E1A19966DA002BE0E46676934408E773D13CD6E2E7664DD85B74A5,
      0x8B21EADC4A233F1E6A67D560A74C022B4EB3667CFE35E759451CF6F6D3C6379F, -0x2BAE76BD18F2CCBE097960F18839BF91CEBF33D78E2E7A97B674A52AFA3E14D,
      0xA99415F5EF3A2B403519F4BB1C9BFBC46D4AFD2E4477572AE6737160D7B91252, 0x82D0E64CAE81F84BB9E2F10F24F6F6B6899A16AD590F4DDD73A377AC4BEDC264,
    Twice(0xCCB0C2D5A765FAE0FA90950F0ED92A38AD56207A00BD4F3EA9DA4B31DFC25815, -0x7FCCFA927CFDB9671C64E37C084307DC660F581E21E5AED2C3FC84A75BBC96DC,
      0xA3AA3090FCD938161215A0727D2BEB1D5433C7CAE994CBBF13259B0089CC8C62, -0x97AE0E4324516B04D78A80BDD178E5CE6BC6B8D5B0D91BD2704EF792F39F466,
      0xB56F4E9F9E4FD1FC7D8EDDE098F935F84C750D705F0C132BD8C465B66A540F17, 0x32E8E53429CCA856D3DC11ADF0582D1D21D42963CBCCA85446A2FCAE0200102D,
    Twice(0xDFEDEC6F42F70B127C80C91FA38EE129550274BDE0C96A7286B93A0F6C39DFC0, -0x128B360260AB035EC54A737E18E29E05FC6780D161EF7AE366007BCC6B249FCBD,
      0xC3E05F097709B687554CE48AD461C21369027274ADB1A14CD8BE0EED304C23E3, -0x2592971C3A968AB060DFD0A8477740D3A517F147279DEA214746E8C7EC813596,
      0xE06372B0F4A207ADF5EA905E8F1771B4E7E8DBD1C6A6C5B725866A0AE4FCE725, 0x7A908974BCE18CFE12A27BB2AD5A488CD7484A7787104870B27034F94EEE31DD,
    Twice(0x24076FDB1FA11F74017E5C3696347308E32B3F0E740977D9C044061B43CC1CA4, -0x22B8AC85B3AC70E22B550E8D9B10E94619B761281B21F65667820E6830A398F8D,
      0x51217ACEFC0CCA5339E73A53387DB126DC3C312AFCF96726A52CE815B9632F8, 0x1D83E10FBB80B98CEDE1DB9A501919FFA989A921176B1C3C2D9B4973FA5E8819,
      0xEAC134CA2046B8F9C8DBD304FAD3F3C045EBFDB4EC6ED3CFE09AEE43ED2FF3E, 0x49630DBE79359B4245BF103BF2B11799AC19F696B7F21376E17206207D210988,
    Twice(0x38894D85C2951105037A5D11369AF6D039F62D660AEF1E5B13689D8A8DA7B17A, 0x1DE43D275B31A9F195FA24270DF5F2FF26F22354CB9CEAD0EEC95A7E4E1F93AC,
      0xC7C5B8E95C537EFD7EA3994C7AE78A109B3E7A267B1F15705122A65E32972F4, -0x2C1FE1E8DF7BF4642DE8F86D67419B714D464671579D68921B9183B3F907AC46,
      0xD6788590731FEA198392119D7ADBB41FF5948A7804C85B17476706E4DFBFA4DC, 0x28EAA8C89D5063C4940EF5C6D21C13AA6206F1C4DDC9A07CCA7BCD6BBD3B5406,
    Twice(0x43E3186271177BC3437DFFD0F295E9A9B2A7A173698F8C15F747E07C7E8FF275, -0x20555BBD52B2984B051DF74468C8A68708E677080475003800730F8759B12B88C,
      0x1200A837C819757CE0C2C0EC32784BE67252EDC78E56056E9539D8527A49D152, 0x1CFAA9A274FBE8D7E888FAE6C26131D467D8CCEED9928574AE1518206E3881E7,
      0x6930FCCBD9A040974ABF210F12B71D4BC7B1A6205599B01A7275FB40E48FF9B3, 0x7F02AE94B94701EADA30FCDB875F6D78090F9B13E4ACC51ACFDDAB5F8EE96A4E,
    Twice(0xB52C04D03EE5D1A4B1D4065D2E74ED960CB2DE26A95AA21ABBC0DF208EF24801, 0x3219CE540D8CB0682860ACF0B518BE32DB1F3D6C62A2146CA9126FCFD6B079AF,
      0x80374660209DC4D06788E2EE0EEDBDC009C0FDC4D5727B6350BC6DB369254A69, 0x32EC3F8ABC29B506A219D8F89B29C6A5DD57666A3150B01213363FD5DF65E811,
      0x213C7A715CD5D45358D0BBF9DC0CE02204B10BDDE2A3F58540AD6908D0559754, 0x4B6DAD0B5AE462507013AD06245BA190BB4850F5F36A7EEDDFF2C27534B458F2,
    Here))))))))
  }

  function Stop11(): Stop {
    Stop(0x10000000000000000000000, 0x213C7A715CD5D45358D0BBF9DC0CE02204B10BDDE2A3F58540AD6908D0559754,
      0x4B6DAD0B5AE462507013AD06245BA190BB4850F5F36A7EEDDFF2C27534B458F2)
  }

  lemma Part11()
    ensures Leads(Walk11(), Stop10(), Stop11(), Gx(), Gy(), Prime())
  {}

  function Walk12(): Walk {
    Twice(0xA25099814B5320E1032C789B522196CA8E997D9C4C7CAF884C79019AD46985E4, 0x52B45C7342FC682CFE049443D210C83E1F5EAF193B000F86E1FC704170ED45A0,
      0x66EA1BA7F03016E7B1E42D427DFE309E705F51BE0F1A222F082FF1AFC82D2C04, 0x3161C590FC281F0FD0544E76BC7E89FB339C5A190C997F8380A8912A12A1571,
      0x1C5E548132B49A7F66AE9FED8323480E0D1AB974622E7CF08993895E0EC87FAC, 0x4FFCF60F837F468F2BB959FA1D4C2AD3A3DEACEB26FE324C555D7B3D5FC2D4EF,
    Twice(0x722376042AE0F9D2AB08571A325ABC3A4436037B5B82183EF03F4C040825C566, 0x3DE524559D4B8A2BB5903D65293F85BEB9DDEC8EFC8F12C13EA8D33F6C79E57C,
      0x32E39A0531BBEF9CB472CDCB7326FCF0E0CC40B0F00B255E91ED2E61F42FBD70, -0x12A156ACDE413DE78FEF4995EA4D64B5267712B3F100F615F29C7B345E69799F,
      0x46276D0602C5668DDEF6E94210BBC7CE1F901C19FED5C970E20FCBA1D4531DBC, 0xE0F7F24D44C75B84A292287570DED99498BADFBFFE1BC99AF8730099686B8E2,
    Twice(0xA108D01AF8D3416AA2F0E358342876E2BA7343CD700F6C28A824E467637A1221, -0x27FC4B54A4E867CE205CDC11269ADBF6871AF4D37EDD9D0D3A1E5086694573D4,
      0x654C160F97D51CAAFEADBC8733AE4F7849326A7F838CD3DFFCF3CA43BA589714, -0x6AC978843C60D841A623FCCAD98312695DA75926A3CF1801F10228D84B6EA408,
      0xEFEA68ECA7A6C24F4E65EB211C3191636850E0ACDC78D8996114EF13522F001D, 0xAAB847869D583C14DA150307A3719A17E413959FB3848771C128419F73BC4415,
    Twice(0xAA93AE9DAA82037FBB9B9AC8D39248DD36602F49C2588D2617DEBF0C252844B5, -0x1BF04DC23DDC839053F93A94BC7AE25BE1C52A44CB3231F4BB9AFAAA5EF029F27,
      0x71A8791B66A132D8FBA6FAA751D78E7117346AC90EAFAAC04FE8A02E748D95ED, 0x6B90581711036A88B9D3F62B75D8AB018E174EEF16460508FBC6B42387335306,
      0x4E7C272A7AF4B34E8DBB9352A5419A87E2838C70ADC62CDDF0CC3A3B08FBD53C, 0x17749C766C9D0B18E16FD09F6DEF681B530B9614BFF7DD33E0B3941817DCAAE6,
    Twice(0x1636E902F0379B679AAFDE9343D791A7AB89D449CE8432E3B716D55E3470094F, -0x441D917262EEEED21F42D0669FB6DBD298AA3D62B05A37B6757A2FF87AC03C84,
      0x1ED7BD3A29D3F793974D11C2A960FEA4BB8627FA737BFD8BEEE428490B8B624, -0x52062A60C732D5B241652E4640AD9FF6AD54EDF34281F01C4FE786564B332B0,
      0x899017B02696888F268A269F4E385D9C9B11F25A1BEF8790E2821E6E7C6E1B4D, 0x43AE2CDAB5B334F0BB45798336358BFAE4E51BC0F932B212009AEBDAD814AB2B,
    Twice(0x61D87A0CFE2E33FD3D7B20932D6EC316534B451B05017D55EBF66DF97C650703, -0xAA062AED44BDD1A5E5AD58378757B59C1730B939F2AA3264550518060397D9D7,
      0x2565C38C08BC544A7E31044EDEF33DBF5B48398D71812BAC968C5B07A9CCD1C0, 0xCD7B2A6CC9432869C7B8341D2BA32F7D673CF5AA001EEA7549AA82456031BD6,
      0x67F644F76E905FD4A8F4728E63227F0E2831F5BF91B583A8AF2635A17E5F712F, 0xB833D68F66445D04F05ADEB7B586CF785E0E1488F7D36198D68ACB5E707160E5,
    Twice(0x24454CFD40D319C9FE377EBAE48788EA6718AE1DC023E42F98C46838DFDB2715, -0x4A75FA21F209D865287AC4C4C52A4BBDE5E9E37EF15B89B7D9B8181AF5DEC37F,
      0x5239069D1E7AA133F5DC8B8D2A2A68A493A7A4D744A35B45BF57354A007F657, 0x7932BBCC16777CFBBD5F57CBC7B771DFDCAB64C8FBABD6460AD3BFC63053805,
      0x327F876C93652555FA80A054968B4712930DC93012EE6B8DC10263ED3B89A762, 0xB2D404EAB3524026B09969255E1997B975535070FEBD7DFE9C9FD959B9203301,
    Twice(0x717534901DBB59AB006854C068A50DFDD20232FE591A31FBD7DDA12262862069, 0x80A0BA48FE10D7809E6002682FB28E671B0427FDC527B8DF9831CA1E7D8F029A,
      0x3248AE1050C56F9E7F50CE270961745323E43485C95B9BADEE7B4F513613EC19, -0x5A7B06DB34140AD298AFF2FD9DA4D9A8552722DBEEE31FB6775778B44596F25C,
      0xFEA74E3DBE778B1B10F238AD61686AA5C76E3DB2BE43057632427E2840FB27B6, 0x6E0568DB9B0B13297CF674DECCB6AF93126B596B973F7B77701D3DB7F23CB96F,
    Here))))))))
  }

  function Stop12(): Stop {
    Stop(0x1000000000000000000000000, 0xFEA74E3DBE778B1B10F238AD61686AA5C76E3DB2BE43057632427E2840FB27B6,
      0x6E0568DB9B0B13297CF674DECCB6AF93126B596B973F7B77701D3DB7F23CB96F)
  }

  lemma Part12()
    ensures Leads(Walk12(), Stop11(), Stop12(), Gx(), Gy(), Prime())
  {}

  function Walk13(): Walk {
    Twice(0x41C5C1A77B62BAA51B180E1DCBFF6780ECE0A093F5A78051C6DE090FAB67D58B, -0x2BF688BC61357F87C7AC12C53159EEEAC37D98B44A67B9AC998C4029840F67BFE,
      0x10E6051AAAE9FE582D9265E290A533F25B3B43B831051C975AFCFA307DE0F827, 0x46306BCF79E6401BD6822354322DD2536F536B57EABAC4524FF47AC78329467,
      0xED9441C8304280FF180E03D850E8CD0EBB570EE5DE3730488FD97C961F9756E4, 0x3DBE9E9EFE8BFA19AFA176128B13911E09F23774FE4DE98BFF0E09F93F3ABFAE,
    Twice(0xCC008C577437B3B458C9B836494BB2BC62D6E64DA3F0842EF710401E85163577, -0x2330B767A4A6232F533B631FDBA30CF527ECF10705B960AB7ACBCD1C24C99AE54,
      0xA290DFABAE288B648CAD6A41A581E2C2464A6422885A03902FA3619684E63C90, 0x9BF94F9AB265741DD9F65DB9C434FF823DFE69943C7914A48ECA57C7BCCC566A,
      0x29D9698EE67A7C3FC9FED3F624B487515B10BDD84FAB4D3015BAD033D51CF119, 0x7FD02C517DC82B45277A125404F1C96FB89C940E93A7C2963C88740575056339,
    Twice(0x9294B9F9F80B87F9D51EA42CDC54616C6C8CACF9B6A14AD9E9BEE370D90DF338, 0x7DD7DF98FB8F17CF7BAF259F7DE7B689ED0D8D23A4A8927C4435B25E600BCFF3,
      0x53EDFA88AF0F3103514150B0E2B057B6810F4E48E7ADDE498F6DB394B794C213, 0xD6A62C65F8B50B487863B1BC79903CF90EA51746EAC421E2ED06C6F23184D6D,
      0x126B57D05013936D6F3FB7BD33580A31FD453E4A86060CFF467C44537F422491, 0xC1A7DC13061662C2E3C4A3EBA2BF3FB0E148BAC30BF39347AFA31F199DA3EF84,
    Twice(0x27B376E30F76EC47E5E68B16C3A2CF484262BAA820F9D61937A65D963BA0A28F, 0x3816D9965FDDEDA9D51149BD47436AC6F2CCDF7A0ECF4E2CB3F052439E5DFBFB,
      0x6282C08A773F7F264403528C9D2707635CBF47433AFC46943A019D5E204445A, -0xF952A242F3A83E9EB8FD8955FA5295170BF5F1A8B82A65E137608EB955F0D33,
      0x76E64113F677CF0E10A2570D599968D31544E179B760432952C02A4417BDDE39, 0xC90DDF8DEE4E95CF577066D70681F0D35E2A33D2B56D2032B4B1752D1901AC01,
    Twice(0xF1BF5EAE2A0C4C9EF23BB69797A3827927656B3D5C2E1DC0E927CC43F0DB11BA, 0xD60D7D0E5AAC29A5E83AB10161B05393996CBF17BB7CCBD4263A9FBF41EFCF6F,
      0xE449DF52561243FBD126CE94724ABB193A5849501C201AFFBECDECCB7E620583, 0x6014C03B2E4C140700DFF4D4C42084C5C173D46798F76384562D1D4EA8761E9,
      0x708A530E9E52C73BEE87C9D88161C810005D57622C29AE691CF999A83A1187A5, 0x9B884811E1F9A897FA9656DCBB6D38283ECDA73C6D353E8A58A4F19B473DB9C0,
    Twice(0x546ACCA7E813B1998650B06326EF6544D2D72AA88A3413C45C35C5C3BA5CEF5E, -0x2DD8C56AAFF45FB1A9BCC2337484DB46B624D92D032CB409A3CFC1FB1707CEE5,
      0x1BD642DC4EF524DBD26A465B157F579AA935D187CDCBD4E78E5345CB15AE6B44, 0x1C99A50FCAD92DBBA75A01FDFB6A7FB6285682D323A3D2FD65FB6177004AA2E0,
      0x19CF034FC48B3BE219BD648395E462CF9F374B6D86B2B59E2E1B16C6CDE4F5BE, 0x28E32B06A15AB466C3B4BE68AB181947EF91D1C93F0F1C0C0A91532B6F321AF2,
    Twice(0x631098678FDB228E7BE3F87F83E86EFE5E8CB7D78B2BE931475BE0B75E618BE4, 0x17D6BE378B2E949CFB54590858DB0F0BDC5E54A60E7567A729268BC42B8E0B3C,
      0x2655D6F380F09CD7D1D75CA76B5A7606A02BCCBA346B85F6C46817D5FB763014, -0x39E583282FE02D4FB19A89201046B3EAC832A6612FCBA2F53AC812C696ABADFC,
      0xAF6C44A078CB5F0D7C719C2F8397F576EE93BD034BEA2219E3ABC209D17CF3E8, 0x784096FE85D4B30AF9E73153CB246DFEC362AEA7CA0D435B8ADD0601751BAEA,
    Twice(0x792C04E8F7AFD1B9A401FB8523F74D5C81C76302B10A6726B0A0B54D60E62EAC, -0x16182343F468D0CA66637786F8A1488F49C84E5A81D1C5D65AF71F57A5B331CB0,
      0x395AA435EA517470F1B8ED804752E10F71300CAE9BA8C39566383D9721410901, -0xB43C07AB8D5BD59C7E4768350E8DAB008B5B77F63425FC688C2285049439917,
      0xC738C56B03B2ABE1E8281BAA743F8F9A8F7CC643DF26CBEE3AB150242BCBB891, 0x893FB578951AD2537F718F2EACBFBBBB82314EEF7880CFE917E735D9699A84C3,
    Here))))))))
  }

  function Stop13(): Stop {
    Stop(0x100000000000000000000000000, 0xC738C56B03B2ABE1E8281BAA743F8F9A8F7CC643DF26CBEE3AB150242BCBB891,
      0x893FB578951AD2537F718F2EACBFBBBB82314EEF7880CFE917E735D9699A84C3)
  }

  lemma Part13()
    ensures Leads(Walk13(), Stop12(), Stop13(), Gx(), Gy(), Prime())
  {}

  function Walk14(): Walk {
    Twice(0xA12D5E05DFF013873B8147DAE62E9E6CAF91901E3E357C1CEC3858F69F0D4B2, -0x1C64EC2127B90CE08A4959A3234FFC3C4910002E73E81399618ED530130F51379,
      0x657A184D9445038DC7FFBDFA1505471AB982C07CF19F9D57DD3A42BCAFF429, 0x479E117B5162CE41B3C0E22BEB4BB18D617DDB78FE809A45A9B484533122348,
      0x5578845ECD7C037435B32A6992E7AA94647197EA49B8C9E4DDAAB0784662AB1B, 0xE61D07978B6DE2C3CEA6D0A51D2A4053F653A7746A5D64DE316D18F3056F3511,
    Twice(0x2A2F3623EAFC2706805279368E2B1C5C2AFA8D5E85E53D5BA7E9D48345CF88F4, -0x9C55B6EA0590C810380345C9488B0DC63CC8C38D191CDB9BE6FF7FF6ECC944D,
      0x6F38678B5BE3190EF9987AD07B4E5417C203818EFFDC9C4C6FAF85108144B9F, 0x23A5CD34604D26F5F8F98235D7C6EE0AC07D833CB17D3DDAC95CA3D5FAA71C2,
      0x47F3383888A364CC4ABFA3BC1D0CECCD22F12354FCE3996094F869B8948B6C29, 0x48CA9A8D0F032937190E48675B416C7118BB499588F994A81EDEE1120E537EF9,
    Twice(0x292696C573B74A6CD56A72BBB1BCC0D621FB2FF611AEC55BD728A03258FA9AC4, -0x25439964A2F78B6F4511234230E364C76F962AA1D38C70703632CD16DA200A85,
      0x69D621C5A7B0C270C49BA0CA7E99DE18D0796BC6F8D282ED89468A38C21338D, -0x136B068DE713F863BD4563AB698839852BA0EF480E41F640F0BD45E6ACAFCF3A,
      0xC0C01F34AE41B8CFE466B4C9C6A5D5F614F570D6FCBEF768A81A6C8F05FF4ADB, 0xB84F5BEE4357F5C7C937A0B4075B8CECDBC43D170D15B85FC4EFF73AC351065,
    Twice(0xAA59B2DD302EA6D3EBF0BD86B52A675096448EAEE3E2C37F59FE73A32EA2452C, -0x1A40D940C552BC44B7B02FCA4C481DE03513D149CCF41C2BAD9311EABCA6DA01D,
      0x715B40FB9EC1CC1E8E520E2AAED76E383EEDFA9C79BF6D9DC9F3DC09BB2061A1, -0xFDBF86982C64764665CEEE09B37E2B6877990EDAD98E0F3CFA04C76665E527C,
      0xD895626548B65B81E264C7637C972877D1D72E5F3A925014372E9F6588F6C14B, 0xFEBFAA38F2BC7EAE728EC60818C340EB03428D632BB067E179363ED75D7D991F,
    Twice(0x9824E79EE39825411D7BF6454D5ED23A6453D1B81B9B3A889361AE2BB1A01DB9, -0xF6E83A9E304081E099CC77108CC65597AB03761EBE744687604B753A6BDAFA73,
      0x5A6BD85EA484D0621AB42B6367DC2886430B148EE5B9BE8FDCD1166AA31FC5B9, -0x15B01A303D6DE17B2B744573A66CFC7ECFD1BDC16AF2AFF56EAD5C0D7FA285EF,
      0xFD136EEF8971044E8A3A43622003A26703ECAF7A0EC40C3FBA5B594B77078424, 0x218DA834F3C652CC67A1D191B5C5EFA57CF2B1F78A2ADFA8CD61EEEFC671DDF1,
    Twice(0x1410252B4CD150F805430DA05BE0FA84AF1A95F3BDA9041D49B5DAC99BDE7DBC, -0x2E94BE281BED14A399BB11581095CBE701170AF64D95780BF7CE02F51FBB03248,
      0x19286D36ECFDA584698FA927A91ECD982DE784031B782C33EE76A7EAE61FB34, 0x2C75DFA4A8D3A8CCCD0A4632606C0DA8F98885C20D868816EAE4448535E35B8,
      0xD99E8E9DD9638D140E9CCA5367519F861B7003A0D43F024A5F1D84EC8DB1CB3C, 0x36DC19AD1CC0A3A7A945BB321BCEBA6E6286FEF8FFC8765CD88A29E36B8637A7,
    Twice(0xD835DFD81665457B77DE5400F8E630B0F3FEE3384B8A278F65FF35EFBAC3549D, -0x1CE500D8D0A90ABA270B773875208042C1A03FC6152AC935425682CB0553235C6,
      0xB69AF51318FE58995B4EBB0128D58AC886E342F5B06CC428541099C3535FC2D1, 0xB46C79B69E0C08947B138695305925D9FA600F94998AD4CC25C5F2D0D5D37409,
      0x3FDF1619A198317A1BD8A54E5B09191D203351E0440E636FD46F68D3C385172, 0x408D02C06E5C12C3FE470C7D3C8573755B9B929E90E7232B79AC67F0FCCB9794,
    Twice(0x31ACB4E1B1CF7975D68309D78E4079A67FF7CA16B70A141BCA36AA1E38F7816, 0x161028E3F437F29C986B2D84FF0FE81999B303EC52B665E062509C2072D0C1C,
      0x9A391C1F52684501F782EBFAF1CF8B391421A7B0D4F6CC6AA5E17033EDE93, -0x23183F28C71876D8B9C9C3DC7707FC0FF1C181C4C4344BF328C4926D34F12DF,
      0xB8DA94032A957518EB0F6433571E8761CEFFC73693E84EDD49150A564F676E03, 0x2804DFA44805A1E4D7C99CC9762808B092CC584D95FF3B511488E4E74EFDF6E7,
    Here))))))))
  }

  function Stop14(): Stop {
    Stop(0x10000000000000000000000000000, 0xB8DA94032A957518EB0F6433571E8761CEFFC73693E84EDD49150A564F676E03,
      0x2804DFA44805A1E4D7C99CC9762808B092CC584D95FF3B511488E4E74EFDF6E7)
  }

  lemma Part14()
    ensures Leads(Walk14(), Stop13(), Stop14(), Gx(), Gy(), Prime())
  {}

  function Walk15(): Walk {
    Twice(0x9E134159FA7F342A7059C56115BFCBE4AEE40BB38561A32F7D1CD882EB497297, -0x15F04C4F851FD3D06CF3F9D036222F779859DAEAD5158CFDE34F0EC5DD8546AB7,
      0x619BC61DD53F041ADB08009E881497F40C7A698486C1DBBDF97C3531FBF7E62F, 0x2EB4C2CEEEEB7C714F3B1AB78CBEA46338029F5F2381CCB7E75D60EA777DFA15,
      0x6D36D105ED8CC5CE53F2CB698AB620F9469A3E5CB25BF6E6D413F414C5AF726A, 0xE4BA5C34E377669E72D8C66C95C50029DCC59936B4108A35C570491A13F9FC7D,
    Twice(0xF7F95BA71F70FFAE38B8AFE471517EB23276F67BB7E8587CBCC1C8F03FDD8EDC, 0x12F560708DE5589C2AE043C9244C045714DAF5EADBD8C98AA0614E470E551A494,
      0xF03321BFEA9774A7F16EBC1F349C7F646DCC21E6502484D0BF44EDFFB2AFD5CD, 0x30EAC31FB23F919DF0B2E05DF070D5350B6FC5B92E74304FBED32BC8C5A86844,
      0x3AB6BDE10CD3AC0CD06883FA66F0B0E3EB1309C0534B812286E2A30CA540DB99, 0xBACA62079BE871D7FC3117A96A13E99C38D137B0E369C043E6873FE31BDA78A3,
    Twice(0x775399578055E555C62520E02BF03E8454A29230887CA4369E4C87B9BB0BA8CD, 0x85BC34AEB5F7FA0CC635F0F1973BF074123AF52EF756C48780E39DE8CC7E6535,
      0x379ED3DC23E6C8379AAD69F0A74B6B8E34267433E27BEE7F6E92E5DF15598573, -0x1D3808C2398051B042C6C1A220FC12180612F51AA1D51F2D86C0772909AC8D1F,
      0x796634E3F1AD56F0FDBA069D9D07BCE2BA2FD4F373DDD3BA7777BF279F1048DA, 0x4D8EE2B6CFB20B8956DE74735A7927F2532576D8CFD74862E8F9BE24A106CF01,
    Twice(0x500A08279B3C953B7EA4C442AF79EE4FC12BB93017E4727816B4374FCAC245DB, -0x7C35F29C1B3BC8A4D69F2FFC9B445F98B3129D0E4E288598B10D0A2773B220AA,
      0x1906457D64607DD54BB87AA03B9713E5B7D09D82E9234ACA09EF7175D7463238, -0x22995EC69A46033BECADCF2C3D4D9BD05CAF77B3C53110AD3D8E0A5142564796,
      0xE80FEA14441FB33A7D8ADAB9475D7FAB2019EFFB5156A792F1A11778E3C0DF5D, 0xEED1DE7F638E00771E89768CA3CA94472D155E80AF322EA9FCB4291B6AC9EC78,
    Twice(0x759F42169706492F4D893748465B0B891CF451657415EB8BAD19754D88799BB8, -0x19BA19264CFD6C9389AD6A3C6CE837935ECA0A488F5E93BB162B1121DE5C26515,
      0x360AF57BCF2B0091B18B1F9420C8E6F25E2A05BA8A4EC12E9675212E37C02932, 0x4B5B885971C296A9A7E8EFF7BB943B4F8365FCB7A158AF3D5C39622D9147503B,
      0x440CA1F08EA41265981AC4ED1EFE7A37122DCC3877D2F9162DB0E78B0F83CD58, 0xA6C8B0D2CD5EE122AF8954DC9D4E2F02A21E4D4269C0A260B07BC069B88A3F4B,
    Twice(0x9B2F8851451A0C4A32B655DF99F323889B9F437A5AC499423C383F787A29E43E, 0x93F0D17930B35150FF01563B015D9D26552B6E46481B2445AD262F56FA383AAC,
      0x5E1297E5C01B5DAAD6D9150C9E2680F6A8244FA4D9BB091049791EC19136D5FC, -0x6C3997571678E3278816110D73F8335F349DAEDD0E66988BB53D4D6EA3876B94,
      0xF694CBAF2B966C1CC5F7F829D3A907819BC70EBCC1B229D9E81BDA2712998B10, 0x40A63EBA61BEF03D633C5FFACC46D82AEB6C64C3183C2A47F6788B1700F05E51,
    Twice(0xFD694F82CE17714F7E6A833CFA028CF5206AB4C04BAB17679F65E28F90487E1D, -0x24889214DDF5E96ECC980302FA72C01919EA3C594438286A961298487C4B3FA3A,
      0xFAD9527ADD59633A80BC1C09CD3E7592A414D4EC7D5877D9688DF09CBA02C694, 0x6A10E6AE7A0C355BBF382C23F27A5AE640470CBB1C50858A2F82191D5AC7E467,
      0x8B6E862A3556684850B6D4F439A2595047ABF695C08B6414F95A13358DD553FD, 0xEA5E08910ED11CB40D10BC2DF4EB9FA124AC3C5A183383D0D803DAD33E9BE5ED,
    Twice(0x6D66F1633C0EA4E3BE369E04BDCFC73EFAC3F92D72320932C55FD0197C48E44A, -0x1B831007207D2382AA16071EB5866C5B6FBCE624E385D54C8697D8440827A599,
      0x2EC0D2F3BFD451A06955487F1D7454A6C9B8FB266DAD94E1F5D4C40956FCF226, -0xA13058AC3742A60924C7A8CB34F0D4A7064FD8E1951A097AAA12BBC837B83F4,
      0xA301697BDFCD704313BA48E51D567543F2A182031EFD6915DDC07BBCC4E16070, 0x7370F91CFB67E4F5081809FA25D40F9B1735DBF7C0A11A130C0D1A041E177EA1,
    Here))))))))
  }

  function Stop15(): Stop {
    Stop(0x1000000000000000000000000000000, 0xA301697BDFCD704313BA48E51D567543F2A182031EFD6915DDC07BBCC4E16070,
      0x7370F91CFB67E4F5081809FA25D40F9B1735DBF7C0A11A130C0D1A041E177EA1)
  }

  lemma Part15()
    ensures Leads(Walk15(), Stop14(), Stop15(), Gx(), Gy(), Prime())
  {}

  function Walk16(): Walk {
    Twice(0x60FB0DD8CFB159A6CC7A0B308761F2BB17857246959617835EF54989090A211D, -0xDFE93E25F9A5C0730E7D580C5270394CED55B3578F9FA27A0697ECE46483C85A,
      0x24BD4096C3AC05BA0D5303CCA082457955E16A902C7577A0C386B3947621EF35, 0x2EA49002BFD29ED6FB40CBE1AC119161856AFB9CDF37F953225DE64A09882D3A,
      0x27E1E59CFF79F049F3E8D2419E0BFF74B43965004C34B5D811420316F24BA5AE, 0x310B26A6C804E209EE1B5E3CFC79DF05DF48A1A69AFA63F784A5BFEE883A45B3,
    Twice(0x50018607E3D60E50BC5E7DD6EA0060DAB9E5478B964170294F64677EF6F5ADFD, 0xC03BBB77767A7CA496AC970F50D70B9FDAA4B173F25262AA3EF056EFDE41A9E,
      0x1900F3C740A1D360E9D3255FA4AD5E78C907FF186BFFF642A6AD7C93D216BC31, -0x31C0432C5E52239B674DCA9CDB769B72646CEAFF5A1D2AB9889A2FB4046ECD69,
      0xC712E7A5F6864AEE16588EC3892D7E4F5A39ADDE84FBFB4F9969175C9CAED7AE, 0x49644107516363B365ED4B82311DD9E5380D8E544B0CE63784D148AA46156294,
    Twice(0xCAE60BA240A4434E4187587E5C8846B5FB61CB5EED6DF31EF65E69275E8298DD, -0x15C15132C3388CFDE23892F2D20BD8615D31E2E4815AC35BC1E588CF0A6FE93FC,
      0xA0CFD914F616B9C46E07CA946CB5E03879FFF07BBA46EEDFF8AA96423CAE95B6, 0x94482DE376F63E098F3E148BB102E857047429389C9F3F4363C8AF3E87EAAD87,
      0xBFC0504A4B3235D065C0D426B8675FCB2C85D6F58275D791B43E1FE44A6DB03, 0x1955467A6C34F3453FB8EC7F94A6C99237427197345D4F0558AC8D1A464B8542,
    Twice(0x27FEC578A9EDADB2AA5328699C0A3CCCB201D9E4C4C46C036041F20898797576, 0x63B862D71C47D1F0015581476FB72EC8E8184F46C7B5B09A64751ECA379D4D3,
      0x63F9DB7378A8CF8AB62D0F900D1503B04BFC19AF98BDE118883A2EE393AD696, -0x14BB191375BF0DC2B820BEF535D1ECE49581FC8A8E6A5DF28E1D03FEB2B7FE98,
      0x90AD85B389D6B936463F9D0512678DE208CC330B11307FFFAB7AC63E3FB04ED4, 0xE507A3620A38261AFFDCBD9427222B839AEFABE1582894D991D4D48CB6EF150,
    Twice(0xD4F0DB18FED8A66A083B386445C250011B57923062480F793CCB65D82D6F2D6B, -0xDD7ACA48986E41B1A16DCBCD39515EFEEF51292AEB11963AE122DC90C5091330,
      0xB11FCD7CF078704F177CC3FA5493D96D22C100B379D5BE92FAD13D94A94CE040, 0xF63FB98B8DAED0135B1C3C559F98CFCAF5E00E31794151F6A04306500651176,
      0x7E2CD40EF8C94077F44B1D1548425E3D7E125BE646707BAD2818B0EDA7DC0151, 0x905B75082ADCFAB382A61A8B321EF95D889BEE40AEEE082C9A3BC53920721EC7,
    Twice(0x58FF873B75FE48D0DE02BA7960E477F2B009A1FAD79A0C13DB1F838A68704F33, -0x56316A9CACB70890C6E5AE730FEB8344048E0AF8387C2F873CCDE94D1586A8B7,
      0x1EF0AC079103A6E673206F33A47744E9779BB4463A3A92B9459B514293677710, -0xC3404F0462304C85BA5E21ED042DAAFDF9E71BF81507AFCF822A02BAA7522AD,
      0xA146F52195BEDACE21C975BBD1EF52A79C636BF9DB853CF90E103AE41345E597, 0xA5A99B0AB053FEB09AE95DD2DBB31B40EA67A5B221F094B07675676AF45A770A,
    Twice(0x4A448861C49B177BF3D75A72FFBE403636A0189476FFA033360C12BE26583B58, -0xD0B03BBE5CFE3D5B497A1099FA460A5BB8DC409C302BD24A63E90EAE4163D71D,
      0x158BB13142422233804B63A161E1202DF118F86C7763EBB82B7AE3F62F8D0492, -0xE38B6B8D7A32DD15B7CF7844ECF370FDBF193924AC29E8D3876729E79F72E77,
      0xD24C75A1CF1993B9BCFBF9DAB25A8114DBDE421EFECCC4E20CBB53FC4CE45444, 0x58FE1D2DE84DC1D1CFCB7D1810E5A78ABF7593F499F1E524CB93246987DD4A57,
    Twice(0x857AD2CD6B2921BD076754555A30FBAA46C691E4D20C90D6EA86468CD38DA973, -0x1A9772865553569FAE00A81DDB53874D1963C339E5902ED64C58D16F4C4FDB2DA,
      0x4598D9F70AB888E6D9F1FDD04A18FBEE8A6F61585609DD9D1452F8FD79769F69, 0x22E0682E73ABCC81F5398D4340DEDFCD0A23831262DF4B1B5D2EDAF81A85A94B,
      0x8F68B9D2F63B5F339239C1AD981F162EE88C5678723EA3351B7B444C9EC4C0DA, 0x662A9F2DBA063986DE1D90C2B6BE215DBBEA2CFE95510BFDF23CBF79501FFF82,
    Here))))))))
  }

  function Stop16(): Stop {
    Stop(0x100000000000000000000000000000000, 0x8F68B9D2F63B5F339239C1AD981F162EE88C5678723EA3351B7B444C9EC4C0DA,
      0x662A9F2DBA063986DE1D90C2B6BE215DBBEA2CFE95510BFDF23CBF79501FFF82)
  }

  lemma Part16()
    ensures Leads(Walk16(), Stop15(), Stop16(), Gx(), Gy(), Prime())
  {}

  function Walk17(): Walk {
    Minus(0xFC8B6877FAC26CB8BAD159FFB5054E192D185A695991E862B13A1157137BDFBE, -0x155F76594446D49353FE4BD3BCD627AC71EFDAD8B6E9A59380796C8A29ECE8DF,
      0xF922C196D29AC926CF1E8410B2DAE05488D4B55D2ECEABD68FF7362F3DCD3736, 0x22EB1AD495BB3DAC8915FB027F21C9262F5D2CDE7BBEBBA1FACCF26689C0CF8B,
      0x6C034FD8CC8BD548E12569B630710400E6C24A05D9D6B32F08522A241E936DA8, 0x47EC36379EABCB793BFA408F7898EA619798B51289138F979B8EB3FD33D25F15,
    Twice(0x9AAEDCD3F59A511859BF395E1ECD70760076101893A56BB21333695455E74996, -0x31CDEFD3F8A2B6F7AC9D84C1B812DB1E377B86D873C704FC57200DDE822AB11C,
      0x5D76D91FF21C84F78C78559A1B97C9A5DAB9FD762C96A70F888317CECB1CD64B, -0x1A82C4922C4B75C30F6B7357C9DA20D4572827AA642CCE3DE709B0AE6C3527C9,
      0x97E3647DC6F3D7AEBD8CB7DAFF6D3CA14A14EED793FBD5A483831C7B69C1DCCF, 0x61CC4711E780ACE666A2623EEAE905B6C09ACC24851535C9AF243D5E4B388AF8,
    Twice(0xA9148F747424FE2D32B64BE58CFC911FB79A6B7651FD7659709C61EC71D226D5, -0x8D2AB43B4DE71D0238885DE6A07BC5DDF36BE95F39474C4E50FDC771D2853DFD,
      0x6FAC270E7BEE4C1A2E32FFFFFD0BEB467975FA5BE6CA013EBD0B6533823545B4, -0x18EB36749E198CF18C0ACE1A7091840280EECD5FEF63BB603C064618BF7FE8E0,
      0xBD9DFD15B6C79AB3A86C9194634E8A3F8C41B1262A277930F6C47BD4DF23378F, 0xA46CA64F165A57308D5177164E98482B020FCC5AACEA1E70C98A0C888EA6B468,
    Minus(0xC1E5BFAE7E9AB5EDAC943A509F0B909DE0240AB289C209CED04849D954C1ED4A, -0x33687A5B6E27F2808BE4CFE9AE417FB4CF59A4D0BE1121E2CF09E0C815E8459B,
      0x92DC393598999EF50DD2E04F05AF0C1A5ABDBE50DCCC36832C07778AC78AF29B, 0x405A499FD8FE27ECA9206D6F0D1A37A92B4049DD353874F35122175CF46A0BE4,
      0x68A739BE0E328A723ECF601FE7A1C75B5A33520E27A770B89F1B8022C8B2ABC8, 0x69E2F38B16CB6AD206233480EC42D429B3209BF64AA30F27E3B1DCC295074F42,
    Twice(0x8532F8EB16203DE056EE10BBBB95FF107DC6B10E55CAEB78C5B32AA624C44C35, -0x1228E8D492B6C1C8A7F89545D0B2FCFF3F29261E42628DEE8605342F74339C54,
      0x454E00CA72DA77A35EF3236089B8EA25EDFC0F738C8E96C5576F3CFC8F434067, -0x3FD97256A9649838473047226974EB30A8E9AFA5DA2A8D7BF14267A949471F60,
      0xE35E1B85AC68365745C9F535C56E2035B5832B1F25EAFA0E418E04AFDE1AF480, 0xD7C42C86D29D9170A89C014B1236F50DABD52C09A997EEC5B24DADDAD17C4546,
    Twice(0x7DADBCBFAA91CBBF78B2986150AC4E327EDB9C69606820CB5A391831B9AA8B86, -0x189F5A56ACB1560DE1839A3EE687E6F957054FFF2E006AB7E521E7694D9676EC8,
      0x3DB3203BD2C8FC0C771CC0D023FAC244E28CA2E2F079BA5D5BACFE302AA31C25, 0x12FA6EC93B7587FC55E87794AB5B7E5AECF6799FB87728D58C2F434067C4BBC3,
      0xBCB5C46F872A1D5A16BCF3E774A58A88576E8E5E839C03677483A129424B4A59, 0x64512E8B37F510CF879EAD74A15AA65F2BE045D50266AE47EEAFA917B1508B57,
    Twice(0x464B37AEE9E3CF9CEB318E70FBF5949A9746428A0D4230C392969175C1FE9102, -0x16A3B1410210BA52D777038FF98D537E22D52002918F73D94225DECD56BF9D939,
      0x134D388D54824108212509F3BF5890B98CD7B300C079E1CDDC84D397820E998B, 0xC3D0C0958F6370F680EA08CAE68CD3EA63E2CA7982264B0B6EC61BCD908FC70,
      0x9023A8DF54D1F2DF00D367F04BEC7688B96A03B279998820AC41800CEB3CAACD, 0x49351B7E198EA8A7807771BD843CBB3A5E9C2D8A5035E4E3A995425F695E6731,
    Twice(0x90D58CA4958EB13899468BAA7BD19964D7201875B86DDE6CCD6BD3C90CE236DF, -0xA0A2871ABF6C35763894E4FA397FE9DD680FD8D47335C65D4993C8934270C473,
      0x51F0F05C7F65D4369CA6CE82B808BA84F52C84B1E4C9FF4062796E73758F9898, 0x2477A07AC36D8A7D4AA4DADD0E008FA74C971D13307F5C76DE8A8AF9CCC5DA8F,
      0x4FAE94281DB702F7524193CD427222F4F287C4B4CE04AD2F1538E059A80ADCBF, 0x5E20F1B26B1E42C3A10A9268BC517D27E6C9C242716521015C51E378AFEE26C0,
    Here))))))))
  }

  function Stop17(): Stop {
    Stop(0x3FFFFFFFFFFFFFFFFFFFFFFFFFFFFFFFB0, 0x4FAE94281DB702F7524193CD427222F4F287C4B4CE04AD2F1538E059A80ADCBF,
      0x5E20F1B26B1E42C3A10A9268BC517D27E6C9C242716521015C51E378AFEE26C0)
  }

  lemma Part17()
    ensures Leads(Walk17(), Stop16(), Stop17(), Gx(), Gy(), Prime())
  {}

  function Walk18(): Walk {
    Minus(0xF91B01B74C44D50452C012EBDE3FB579CAFDD97F7D7BF637F019FCAAF7079E9, 0x28EDD389D8F39D3B98562C44B8D3D1D33311ED1B6AEEB4140D1011133A91856,
      0xF2658C2FEF0AEEBE02AE9F230F87E877DC93A3654268AC5C1E48D68EDEED55, 0x37A2B2D0575D5085E0940D695FD2D72EF6201126C8DEBAD1A346442D31DBE9D,
      0x1681AF3357C6512FFB8C1E9F65E64FD81A5A93D77A67430CDE445042F5B2E31F, 0x3564DB78473DDBD60FBDDFB84A4429A0F182BFA0FC14BC3A5A5DDF8181A5210D,
    Twice(0x37B6C936C1F724A47343CB4FDFD95568D4EBE6ACC6D9E50901A795723E359831, 0x114DF2385F87297DB1E1B3EEE5842C7A40DB669BBBDF26632BD918A8EB9C6CF9,
      0xC200CF83F5B0573421F4BFA2E002E5DEBF35B331F12AF09DEF4426B25D4CF50, -0x271831B1BAAA910AFA64C23ED49266AAA9676D4BE8BC9E689165C1CED33C2282,
      0xCA24485C16CD176669FAFF4F27C41C15E0A123C7C859E2F2176E40499089A373, 0x7B25866B4BC8A1CE1FD65B75A45028FE7AD6ED6B9EE8C7670E45E003072A7CBD,
    Twice(0x1FEAF819FFCA25F3B9C197E022F9534F881680B73B166F6322E4C00D66DDCCC1, -0x1C022B027D6A57E696DA59FA7C4B9E0A984F97307F1DD96D78704A5598AB266CF,
      0x3FABFC0CBECF4FA0724716EC29B6D53CC10FC7A8BB39C5D94AACC8C37CD32C7, 0xA2679597E6FB1AD3EC513B944BBF51AF341E1499323A72613D8B35D57CDCBA1,
      0x78BAFC5E16A4ACAA01C15C4DFD18666B463E43E771FCC38AB38D2043CA09AC12, 0x249E44F753381138B95A4E6FEFF0AE5E38107DF0B053486DEE49DA58E59370D5,
    Minus(0xE1A5F099E7D10503CF72913018556899858D231BE015D0D574C73063A319368B, 0xE4A86E1E5AE391799A6A54784AF320608018E7350EBF66DE116F6126949AE0,
      0xC6E51C7E92032D6FFCBAD2208AA3DA52C7C6C1EFB0ABF924C436254966719334, -0x6E9FAA5ED44BC24F7DACAA8903D0DC80DE77040151918A3AA97D83572BBA329B,
      0xF63BE9637BCDACEDE3C3FE4F387445BB29D7CEB887FDA015F18DAC27CB35F543, 0x9DEA543F3499C68E7512B9733F73DEDDA18BC1550D229ACA9537D871E58C5A05,
    Twice(0xD1C03969250C4DD33FB07BCBFC4F9E59FB99A37D71A5A1B3FFF6F08CA4156E2C, -0x1C3BFD3D02B8D9D0B094D5964B964F23095AA93E888ABC917B0935799EC38258D,
      0xABDB6E13D915A7368EFA2B9A0DBA9AA3AAEA052264C3D1BEDAB778F6B59B4CDD, 0x604C48BAD9BC7D29D9D2A83554C046585B189DA448F17E86F53E9FF130CB3945,
      0x80B3E8EF2CA93E4564FB4FB748B29409A3FD06E70089274AFC73112C21E64477, 0x7D1035444E130B2E9321CC9D22E97CF9A34BFC81A30FB38E73366EABDA6F4160,
    Twice(0xF2E392A1075B09257A56D40B9302887966FBD4A1789052512367E3174D62B5C3, 0x2B33C89B2FD6FB3438317A412EEC3E2D22092641775D6FF06889B8A529C61643,
      0xE6730B85CF773A6B2AE97A706734CC2B6F988547AB63A0FAAFC9A3E73909CB8E, 0x1E73DD4E4C6FC5FE9B08FCF2AB9A3CF79546C82FE0016710F0E8463EA306BE3B,
      0x609B3A59C72885DEA386CCEAD145835D38F59EFE2B943BEDC311311762EEA289, 0xF8E2D08352AFB20D2B392CC9475C34A04D4F9FA00C283410F239EC5071865C15,
    Minus(0xB8EDA1A8824A7752DCE3F803F0BC739AA7FFCD9E6730FC80874075CA4078D38, 0x12289D2A4585011B668427A204407FE401444C44056C536D373DD765039C3FA,
      0x859674F6F361AC34FB174010E6627CF2F298C57C8D45D4BE038467568E530B, -0x16C5B98510C2E0A1CC8423D9E16F43CE64BFC678C2E7D0D30C40A35C7439F4F,
      0x80216FBA773E5E62BA48D7A506F6A3F9C3A11E2AE0DD2A3397F72C62A23AEF1A, 0xADF67121C5DA1C4462F32158EAE2EB10B686F06D1658068DC9CCFB913A930AB4,
    Twice(0x714AC25124A0F210514A0FFDA9101CAC365C8D7F76311C6C49FDAA7D96325F24, -0x266B31D85ED943EC687D67356C766330D106B3FA22A4F0291B60E0215FBBF474,
      0x322315608CBE57FA7B29F3BAEF25D52FA121ACE2A47735AECC8E2D4840D1E119, -0x3677574AA8C1971B77C2EEC364E4B9BA67E04E7DD6491EEB82ECF45159E2F7EC,
      0xFB34775DA06AB702D1066FD09D8776C02EA1BC6C1E4E82453C5223A299F1EF45, 0xBB9A7ABD63C50265ABF3D2FB7B1CFC235B479503BC63B56EA5D9E148C106CE94,
    Here))))))))
  }

  function Stop18(): Stop {
    Stop(0x7FFFFFFFFFFFFFFFFFFFFFFFFFFFFFFF5D6, 0xFB34775DA06AB702D1066FD09D8776C02EA1BC6C1E4E82453C5223A299F1EF45,
      0xBB9A7ABD63C50265ABF3D2FB7B1CFC235B479503BC63B56EA5D9E148C106CE94)
  }

  lemma Part18()
    ensures Leads(Walk18(), Stop17(), Stop18(), Gx(), Gy(), Prime())
  {}

  function Walk19(): Walk {
    Twice(0xEFF70C491077D6EC76DEB529425A4439FB9F0A65FB05229200A788C0D3B3ED2D, -0x183CB3F2EDF48BCD89F0CF5E79432E872CAE006F2ED0A58058DE0F99D97A73AAD,
      0xE0EF3759225478F3E3CF28FC5EA4502D86EEE32D8FF3ACD2F30CB3922A649418, 0xD7D132158E1CD6AC421CBCEFBC6CDC2B1B4FF1EE02421BD1BAA894D833013613,
      0x14F7672BF91530A0C6CA84AB95EBE6E5D4DE984D9204625A1EE548944C9FAAF7, 0x51A728B07AA59CCC082B9998525768CB5592AE48A1A74203130FAA4FB3D4C7A5,
    Minus(0xF66EEB2AE5C65A6823253261C9092F7A97CB28AD3EB54ECCE2149811566C4636, 0x6102E36F07E54295D5EF2A5E25015D365D7AE2A07AB768582E5EE344FB6CF51C,
      0xED395C05627E7540325702EB54FEC710D8A9D6CF9DF1C41EC4E6D57A33243F95, -0x6ECD21BF74BD16E65ECCE74176E368F5F2C5C40A20D4053D8E1CC03AF373E64A,
      0x8811B0C34CE4AFC34ACD6B2C139C41266C15B3DBAE17D673AA9F8D266290787A, 0x4602972E3BA14EA15774DCAFBBEAE0F20114838FA484B9441178D14700982C4F,
    Twice(0xFB2B929C5C52A0C85B192208855D148AE2DE4E021D066D7BE9836724BF3C5059, -0x4F977D9574828C86306B0CDF6AED8AD92014B0D02990DBF137586C1E8A8762E2,
      0xF66E78E93187C3D9CB55DD813CA4014BC3F2A2C3D9B1261A687D032CF1A41D6F, -0xD45731D8F4B4173260F33418F01FDE0F066609FC5FAC5C0026AABB8EA98D635,
      0x959878645880BE1D10BB6CC160B53E8156EFE79D8532D9B97F0D66CAFF23229C, 0xA4F6B989D576FBB18A188937A3495EADC591F238E8488A0EC0C1268D2BFE8D9A,
    Twice(0xA538286F0F4DD5ABD361615C2A97B79EC03B46C49C35832DFC7AE456D6D673C0, -0x315219A2E7459B319BF82790EA1E3C721D3EFBF8CCB7865D80DE9B9FACF77CD0,
      0x6AA17070E0B3EC7392D735DF82936360CF47DD38EA3F8ADC5EFAC292AD4E1AAC, 0x524238E1DF80CA77FF4C969FCFC70B8F4D175404F8DD37112E7F1075B1F54C20,
      0x1623B307019FB9416BCBA5E3AC5D4671CB82E4A5A5D6F81187C2E10822239534, 0x3DAD53912EE1B8486A55DA61AF309105188109672841D5B3A71950F0AE48BE86,
    Twice(0x9838F6C643C678E8EA7FF729A7268090A7103064616EE571F8CC564D0C14DB8A, 0x439ACEBAAC631E73DF3546F57266C3E8B67D3C2E3C658D0E35A6C9CA9CFEBDB8,
      0x5A83B1B8551AFA37D5B2B59F71D224448CB3203EDEB74340374CF809BCE828C5, -0x638568F8D1B327BC2B107507452F6FE4EA85A626C31D83899FF101D129345B1A,
      0xBD824C30C17923BEFDEE75F8EC74C4D6B5238FF10E18E9B546AFC32AA791D3D1, 0x3B211912406057573C9FCA1BE3F0F8EB90164090DB09FA86C683CB3093A5839E,
    Twice(0x25AC4C4957CFB517208FB3A1DA2E8A863EE0692EA7F2BCA7E8C07E2E660D9BB6, -0x19375CB7DE2251E5D2A1C3D65D7F78B658F94D54CED0D827425915A693C72F4B5,
      0x58B4203CCABAA9A8C97232822CD390D975FEE72D92B988BF3ECC5EB75FA12AB, -0x56642A9AD809BE45F5258758A626CD23049249553AA1E387551672DEDED3A6,
      0xBFCD5A68E2261AA280BA807120AB3057F215AD213E6C0B947F13DA29276F7C5D, 0x1EBDD824C9B079D31CDECF16E07E30D73CF94B1ADDAD309E402643D968362854,
    Minus(0xF34FA0AE9B45403FE0E834B98A53B11064998C305CD2314CB9FBCCFAF3738F54, -0x4295FC1D6DC64F3D4BFEA7F7B1BDD20BF532CBA0C04CA8D87741E373092DACE9,
      0xE74043D00B6405E4ED05C1E9D1964856B9F697D88DA1F036435371022408D68F, -0x8D112619E2A6D2DE319599311F9091AC22B68BDFFC4366ACDF436B037894EDB,
      0xC9142246837614F7C53C00DEAE3FB513F5558BEAF981914E44D32A89D50A375A, 0x4241277FDB4017C0AEC6FAF882C0B59373FFECE8B23B55BAE53C430318E437DD,
    Twice(0xD25BED1F34D120A9F3EB037B4EC798F6A36E21192D34BAA62FB7080012575A4A, -0x16CEF645BAB44465C270A71D988D36025AD41E7A856A0DFBDD3511B82543D6D58,
      0xACDAF209A27971DD190731B063094D8A85F1B9D5AEE42B5A0AA67901BA3C1FC0, 0x6621E1E36BE01A38AE32B7BD7B5D1B5659AFE5227B646AF434C5D65FCB4B3F59,
      0x4CC977571D40C3264D789889D3B2DCBC0A0B5E3E6E0FB62F8EAAA0C4FB84DA70, 0x40713E8A58AE61A349BB36E5052512F066050F913A70F7F06A9BC4278C05AA70,
    Here))))))))
  }

  function Stop19(): Stop {
    Stop(0x1FFFFFFFFFFFFFFFFFFFFFFFFFFFFFFFD755E, 0x4CC977571D40C3264D789889D3B2DCBC0A0B5E3E6E0FB62F8EAAA0C4FB84DA70,
      0x40713E8A58AE61A349BB36E5052512F066050F913A70F7F06A9BC4278C05AA70)
  }

  lemma Part19()
    ensures Leads(Walk19(), Stop18(), Stop19(), Gx(), Gy(), Prime())
  {}

  function Walk20(): Walk {
    Twice(0xEF22B56DA8A04A7D889068152800E8A662D13200BCF3F8866C73CDCC98B1877E, 0x334C33F93EB3E5C279A1447E9862BDE7B858584BF1F5F484980CF6B803C310C0,
      0xDF61D37772905515DF3DA0D79A4BECD9D37512AD258BFFDEA91F7EBC5D9E60F7, -0x58508D93BFB429C2101A608CDD174D79486A90060DA26766A6C4ABD195676356,
      0xAB546DD3A5C421089C7EE0404CC03801688326455DF5D4EAC5B2D52096587BCB, 0x1FEE97BD212BC563779C99EE0CB5D5513D34614E9D0170CDD1C3E246DE3CD290,
    Twice(0xEF0CD14EDD1E93BDF5C7068919D57C768F289C5BF9B99D1D0096565E752B463C, -0x11C5B01CA66687419335FF0044BA62B79136952EC7312EB4E44AE6657B1AE2F85,
      0xDF38EF758B65B011F594AAAA492DD34901D0FC08B6D88E48B2FDD3BBBD5901DD, 0x74B4B6FB5933A9AC365B725955479525BBEB0FDBFF0C4EA276F338A8BED4F5D3,
      0x2E594B864CC0BD4E548BBA3740062434F5F47A3AF609973AEF90E0ACF76C02E7, 0x3AB3479CAA25B7F8417B53881178049A256799215194264DE42FF8CAD7480523,
    Minus(0xA74EB1DED9B0A87B22F86C7CAF786224204CE368EE629765CA0421FB5B104915, 0x314621C8FA220FCB3FC5DED1D6F2034A93E2EB5903A9195BADE8B2064FC5189F,
      0x6D57C4419F670E7BE324E061CF45A6ECF7765ACA1FDD49B126FF5F1A9002DE20, 0x16DDEF9A067909966634A8201A3A7029D84D12B98F07DAF67B1F47AEC95CEB2,
      0x2C29782866523B7A61D000BD42ACF69F5DD3CADE6FE59CCB6CECBEA3B20A995A, 0x2ABE01A9F13BE678DB84E527A0D5DF83D7DD82EDBC92A5D23546EF6E4058ADC0,
    Twice(0xBA7B6F02DC63AF8FD13B23DDA46E194D0DC1D899E799C1CACA6B0B37586332F9, 0x276A7A017C51497EEEDCD7706CD329952C9D6D42E375C754003A50D7258B9BAC,
      0x87D798D405241E0E51C5F13389322CDB49D93D71C7CE2C9F31DD9A097BB35977, -0x31B426DB5F882DD6CE1F4D3B9172106D261E7B1A0BABB587EAB915DD577C2560,
      0x7064FFF4DB98F682CA0B2CB10E4E7AFBD5D22162EF32CBE1203E60DA5A1F72A4, 0x2A323BBEEDEC8C7DA4D3528A4CB82908D90EFF484C9DE19D8E21FDD1D886E1E6,
    Twice(0xB65975493130D4BDB9E2A904B9DF8E50E25670B8FA6E6A90D6926838E9648297, -0x57ECACE29589AA31D1EDE29FA28A2709C49B765DF85B12FCF2496773249E04E4,
      0x81E35206D4919E5569FC02CA886F1492E8296F823A651879EB8832A7E35052EF, 0x19478A94A3FFC940C14216307D5F80C985D64B26C77B342E3186D1149823C80B,
      0x4CE79DDFA19E523C80036B4C5021A1B870B59B7C0D7D855388B4D331F7E351E8, 0x16DE532315C9459AF461DB1D4C92A6914571DF713408EC099E726C6E278E56F9,
    Twice(0x6755B546BD5ECDAD54830125945EBCF11749FF30A79ABE014586232733CBB5A, -0x4427A272715A48E38475B4C4ACEB6E620E8359981D6D5D392508302F76339A14,
      0x29B61490CDB925CA39E03D0416EF15EA0D4C1207D26B5D2F74E4C958FE1FE5, 0x35CFA3C92D9A6122D36103B58FD937DA8481DFD6CFA9FF2D5A1C2A3FA27203,
      0x4492A505FCF9B0FFA7974D3CDD9D8C31CAE6D83568871376F99B53D0E95DB0C9, 0xBC15A9E21CD9EB81138F0646C38BA1BA5E947D23F914406AE5CCF54D1B571060,
    Minus(0x5FB293AF30EC24877FCDFC76B4E2FE1D512DC5A1A85675280D2D80BA85BE7BDE, 0x13E053E4EF2311F215C31057374A34B82180B3658C066E631781D471D7BC4F85,
      0x23C6062DBB21F5927B6F9160A9DAC86B19F443C2973A0C9DCC205EC17EC38297, -0x15EC773CFF690867FA79D3947B75B5B656CD811849308877763F9C2EDD20446F,
      0x7F3884E02C4EE06657C57E693C15E73846A188AE5020553A6554C6E88D46AE6A, 0x86E51EC3E50750248CE9BC60F9948053C0EA9CF0DC5CEB46318137E041D7763,
    Twice(0x88246DEC0A2F5C1781C111B275131F55B126FD8E265FDDE8AC3989CB1274622C, -0xB4B3C3A2EE87CCE3C41422D268A41614F18BD0256F42B1EC34E07BBCEF8F079C,
      0x4866B9F9E4680979FC9F2CE503857917C81E1258B21D7EB93EA202FDE58D29D0, -0x2758277EBA323C6CED1BCFE32693C9152E74357B04F6D4C676338AC423F8CA37,
      0xC9340D137D8EAAA3013A5BBD04185F63E2184E38397177D6D1C4637742B4ED8C, 0x79330F1AC4A4157AFCD03D587BDFB89C74388C802B54401B42E9C96750E0EEDE,
    Here))))))))
  }

  function Stop20(): Stop {
    Stop(0x7FFFFFFFFFFFFFFFFFFFFFFFFFFFFFFF5D576E, 0xC9340D137D8EAAA3013A5BBD04185F63E2184E38397177D6D1C4637742B4ED8C,
      0x79330F1AC4A4157AFCD03D587BDFB89C74388C802B54401B42E9C96750E0EEDE)
  }

  lemma Part20()
    ensures Leads(Walk20(), Stop19(), Stop20(), Gx(), Gy(), Prime())
  {}

  function Walk21(): Walk {
    Twice(0x907E6CA0DF806EFA454760A45D6531E8911524BE961DB28481F68854CCAA76F4, -0x151972F3D5F7BE0ECA05818E627FBE93D69DFB3A2D0686AFA8CA2AA3F4DA33980,
      0x518E78A417E4A0F34D9B640E0CB4EDF89D0A78B395C937A48FC08FE2BAC1AE60, 0xC47EF0A38A666AF2ADD405446B1DA51C956778C7AC0966AC27C45C02F7025CB,
      0xB371F028126C676CD92D0C7E533EB71231EF7BA784204FE84BEF76F34B1679D8, 0xAEB5FFF8FAA3DBB780856DAC00BD751D207A43F71C97F23566251B400C028C6D,
    Plus(0x65AA85691AEE4E00FC38309544A5890CB087836DA9F9F38F27B2B31029E9A47B, -0x16EA449B183540C2CD64A8FA7A59F4F8D90CD949F5A911532834202D9015C9E5,
      0x285FFEDA645E2F2F17B19984EBD1B9D035EDE2F6242279FACFAC97F7A361C184, -0xBBBF35929844110F22A56A1821A657176BFC2634B93FB9FCBB1996E8134D07D,
      0xD0FE06C5CF22D88FCB5479F7EACA12B67600D02F305DFD7AC450FE985D98CA6D, 0x9120673AD33081DF68B68A6CCDCEC808CADAD805FDC8AC277FCDA98944949AEF,
    Twice(0xFF3B9CEF794D59AF663742705C924D25096B6E5D78CB79B0C564211264074AB6, -0xDE7730B2DC37D5C4F9F667800E8412900314DB6CD2B772B879F84E92CA06AA49,
      0xFE77D086CA3EBE2CC1B0A40F8DEC470A02B093D076F7F77F57ADC054A8D1628C, -0x1FC68AA8DB240F8F83E91040DC0A0A24107C30675429969B0CD3E65BE1F7A1E2,
      0xF0DD047E36490351D24663207D5017565A94BD76B32B366751D9889EE7A93CD6, 0xC687DE996AC38DD5971AAA2A2E735551441A078859B92E1AEC88C3D64BB7E4E9,
    Twice(0x28D1A2346878B14458DF21150493C1BDBF85720BADE0927BAE4DA94DF6157F1, -0x2A3E87C084CE7369A941BD8381512030094E0EF86D754B3062FF62870A4155326,
      0x6822E5AA0FEAB6A2963A3D7494BE15679766BAA37E678333462317F35AC52, 0x108F70E28DDEEBC636C0402A5C4D673423F8761DD7C4EFC4ACD2648B0BC73A7,
      0x8900E877085727C1217D96BC9B011586B5FE729576717FBFF4F438DC4D5BDC27, 0x8D0C356E86CBF1B0E17AE6F761C928054722D0701F988B3EB730CD94D57FF92D,
    Twice(0xB231C5C3633A4D5700F705351D2635F7B72CC9CE54B9CCA358FE7C680FFF87FD, -0x179A178A6E1F54F1A7CF7DA669BB6A0D53D27D5F5E1930920CC4DE3AEA620FEF,
      0x7C0940B1038F5BB6A4F5C0EDEEBCEB900C790E2010968343B66BABFFB285128E, -0x1D6C497A7942C5F4355A6719262146C6B33D79BEE1E50FB371D98D98998ACC39,
      0xB3460A6514A08BCFF7E1C21E519BE467D889B4BAF1B46C754FEF923D8B66E7A9, 0xE6E07D62D0DE0B037FE0CCE0A272DF733511C938B60E5E4455EA4E80F750B3D0,
    Minus(0x38B417CA4CBB532F46249AF4AC8862F278B57ECDF8CF3EBEA4F9FD9657768E7F, -0xCBE249239A5049D7D97840580C8CC40080311120FD1774939BF8A41673F73CA,
      0xC8F4919F843D57880BC2EF0ECE8B1E83BD580BD9AD1C04AF5A269722E30FDFA, -0x970BA4D9C84E76C2DD832ACDF59EE8F3FBF19EEE56DE4138D7726156C39408A,
      0xDDE4DFB5DFCA4FB57A8CE9BA2DDB2E52380942165CBA4719D2A925B9A4FF6ADA, 0xF78D44A4251D5AF7CA3EF4FCE177626FFBC755BBAD781C7AB0B12BD7972BBA37,
    Twice(0xB7D7DFD2DD60EBC633DF4932F165679C28F925B5AC1C11CAE367C92589A57D92, -0xDD716C51E542A17B543CD739E75556B61BF4D199C544417B7815C13AEA3EDED0,
      0x8406580930617540324AF705C7E73321130AAED62C7A84FFB7B6B26E79AB264C, 0x5100ED8993BDB87B04F2A3FADD12CD959AF9DA94B9CF3FEDFFAEA03ACAF0B198,
      0x6D18E5DA0BB638ACDCF053A8A4C18563AC2F25E7A5FB7E11DF1BEE0C6BFA399C, 0x26EF4D15F51B5BFADC9158BB92987EE36FAF52BD1C1F26CD6FEFAF6BE261663D,
    Twice(0x75A74A2E990E1651DDDEC1E928034D4DA24FB8884096C0933E6136F675561C39, -0x67B1033995E20ED56F07653180EC93B1B5FAF8148DC3F5F8ACC5FFD21457FADA,
      0x36125720763189BF75164704EF08685A7370C43C4E5CF1369E9DFD2DC9D2BCCA, -0x18BB7A5200246F35DA1A8C9394631950BAF2AF5241920841890392904CDB8589,
      0xA2E971319E811ABCC472A10C00A63C01B36015B9F4C903A66EEE38BF78B69063, 0xC9E48179584F643C3AC90F8C01979D80DA43C28AEBF1488A5EEB82EB428EE39B,
    Here))))))))
  }

  function Stop21(): Stop {
    Stop(0x1FFFFFFFFFFFFFFFFFFFFFFFFFFFFFFFD755DB9C, 0xA2E971319E811ABCC472A10C00A63C01B36015B9F4C903A66EEE38BF78B69063,
      0xC9E48179584F643C3AC90F8C01979D80DA43C28AEBF1488A5EEB82EB428EE39B)
  }

  lemma Part21()
    ensures Leads(Walk21(), Stop20(), Stop21(), Gx(), Gy(), Prime())
  {}

  function Walk22(): Walk {
    Plus(0x78E4121C61C528CEC73A1C573BAAF5E75E0287F5D65DA61A20DDB245AB1B8092, -0x1370DA42DB766DCED5721BBA83C212A29AC52581F87489F888E56843A76CC18D,
      0x39169C2ADF7EFE57CD4E5C188BBEF4B92321CF8F4B48A1AA337572DD91DBA831, -0xF44AB859E438FB32B39E6F574723CD15A073823529FA1B3D32A732126CDE37E,
      0xC33E7CE847456128A1E5420C9C29F9A59CFECDF402ABF91C9646651B82FC8E4A, 0xC1E0E6564BEDF74775347DD0A5896A097156AA603CBEE27C66690332B6749AC9,
    Twice(0x2835932153B072F79E4C7E62B278C8FA650162E54B45FAD45FF41A6DF5F6914C, -0x181D156AAB35CCA44ABC1D3799A45F39032FCF8279F47ABD5924A8DF6D8EA656C,
      0x650C930AA8315704EE15AF8AE424EDAF2AFA6B4078ED7A13EF4BD2A471F7E08, 0x1E1E25D1B982FA6C0BD6DFE186F14D0E72DEAC413A5D09717D10DDB4F221700,
      0xB7427AF8AAA5AAC6F361BA9579A15DB96C2941B3E1C7323F3545AC7971BE0E84, 0xF93038F3CDE0603444DCF11B04D26AA0B052BA1D67D770C57BE5774D15D640FF,
    Twice(0xB58C42B76682BBC037885C1ED2F3E5B40131BEC35EE4B6CDA64A96DE9BCFE6F9, -0x28211810821FDB4675E292EF15477C8C951A7F13F95FE674B2FFF529F19EF77E,
      0x80BFA33060F010BA4987893A71A2A7C5D0488F8501182A5D1089DB6C636B26C4, 0x14E714E22F223FB8A803A476F924CAF21FD066E4F4A431CC71A231851DCCA3E8,
      0x99C8F0BD11964531387514E34E0FFB4669880C4C2CCC6ECAC90804DD6585332D, 0x949D3A719EAEF352D72EB9098C84BFE9D574FD08AE450BA0B801E19DA4DDC908,
    Twice(0x1F2F4ACC43DAE13959E540E71B296215E4E36B14F5E0AAD4A57BE917C5B674D0, -0xF0F06BB6112E8C7D99EEAAFA16C01132372E30C4868DE168589767857B1F7135,
      0x3CC7CDA054AA72157DCF04DFD3602442DB25F91E2583D566FD032C78510F70B, -0x787F9EC3F528F9398958F383C42609381EE257FBD4C6570672E49B6586A8CCC,
      0xD79BF9F07A33C0A0185A7483EC1B476503DED449B4409C964C90A7F577C193A1, 0x15DDDAFA7B4AA509670C701487A2A2DC913B03CCF25A4E1532E9294AE943F22C,
    Minus(0x9A1B4B351A71976545DB9CF18D4D0D993AB38CA22D3AC906534F821385D5406D, -0x38814CA436F0D08BA973C3282E3FDB923A5C67BBE4AB95AC259A733E714F24E0,
      0x5CC4D964D71C669E4BE2412AE6F9EFA7C4431FFDED13E26F8915DFFB85F443AB, -0x154583E702016F8B94C1176AB6A62D6E19093DD60D87C8DFAFC14061535DBA7,
      0xD9D15A4C3449C319EA466C1F135AE85CB28FF0B94B652C2036407408321542CB, 0x87C1D75CB1C7BE1E3D5C90E8EB028A9D6BE0681A17FA88FEE378278952D2B09B,
    Twice(0x1D99561EE2C3EF21851D7CACB2AD51F830F56BE32F8FB4B90E73A884B795D1EC, -0x20C993707D70DB7C3227017333A28B1EFD39F4AB54C5E1D5445CB5676B82FF74D,
      0x36C195B0D44367701AEE4F6850E8E4209A290B880201FBAF27E88E054E21DF5, 0x97EDCEAB67A2D81BC1560E81E3BCD5CD08C304DE46783B1D70D92220384F294,
      0x87B0F116E7348A990EEB818E160C7AC687F34811E3F2598240FF5B35FFA4FFFF, 0x533CACD042786FD9899B7AC1018208BE9CB2E6410344484FA3DFE814F6513649,
    Twice(0x9D5F07313EECD9367CF3F9A2A5D3A6D759FB70877D413E70B0313994808C13F6, -0x716E120A93785898C68072D3EB736D6EDFA9E637F1882185AD0CEC3DBCDF34F9,
      0x60BDB218BDEEF12025B7B34D8C731D3CA3AD6924083A4C94CB4FEDFC828697A1, -0x2FE7790EF037FC9DE9BAB82666565334A8906F3409478A5AFCD05C346910953A,
      0xD59E43EC0D288CAA21E3F266F4FE0D0EB5E667E0659F6689142622EEFAFD1DD7, 0x593D3E4D81EEFC13C5663D8EFD0DDBEF4149713D229BBD2679051C46AE6191CD,
    Minus(0x86BA109E0B28FA365FC5FAEE1CB320148E0510F2387ACB8FD01D66563B1DCDFD, -0x3059F484AF5C824BC1E03FF2E00EF52D4F3FC747908334895BDD53CD3D97CDA3,
      0x46E750A19A6B4073699EA188B193EB6C0DFDAAD0C60F5BB533A0B015A6735E4D, 0x10258417F480AB1A32B00556B3B64D0181C857F5C8D6950C7BB86818EEF21BBE,
      0xB6F0001FE4F5FFCEC3D77D137743B962B703325C4E72258691BF7F0A1B66DA77, 0x72193E0C7016E5AD9B3FCB618DE126341F99B5DE4CA69C409F085EA848EEC431,
    Here))))))))
  }

  function Stop22(): Stop {
    Stop(0x3FFFFFFFFFFFFFFFFFFFFFFFFFFFFFFFAEABB739B, 0xB6F0001FE4F5FFCEC3D77D137743B962B703325C4E72258691BF7F0A1B66DA77,
      0x72193E0C7016E5AD9B3FCB618DE126341F99B5DE4CA69C409F085EA848EEC431)
  }

  lemma Part22()
    ensures Leads(Walk22(), Stop21(), Stop22(), Gx(), Gy(), Prime())
  {}

  function Walk23(): Walk {
    Twice(0xE4D6753800C65953DA70514BB94DA9E03189DE16C9FA3086112D99228EF1C1BA, -0xBC324251DD29C8E12D4C3F93CDB631547045876D5E1FDAA0DDC2A257901CA071,
      0xCC8EB473F0AED7B059B7989F55003C08A3332346BA2369543B4CE844A2AE6458, 0x4BA30E03FB2A89FF93E8BB6D7CBF42BBAEC423FB661B3AB9F47FF54F9E5BB85B,
      0x62529DA54351C49215F27E8C5278E7ECFF2DB822894ED6A5E0AEB4D54F8D3A0E, 0xCB298D0708D0ED8493E09E772C36F034E071E649470E87295E50F46582028464,
    Twice(0xB25B45C9D1888FDC652A39C4C69383330A7096D97CF830A96872044AB68B58EF, 0xA9CC945911A118F7819DE8DFB2D7EE2349337934040DAE98FF324DB6A74D2754,
      0x7C430D9757E3493314DD9EB95DAF7F517B92D927E43453F104253AA9699DC7EF, 0x22B8439117FD5C485F77147CEDC757230CFDEB6FC44C00312E7D8EC1A5B3CD33,
      0x307D0C4B44416A0FBC29EF454508324C4737AF99808F2B9C44B28F49FA7CC224, 0xF8AD081F69221C63EFA507B01B916D04E92A3F21E973569CC1D6D2FE6CD5FEB5,
    Minus(0xCFA74E52D54B5960E255D66AEFF17B96874FA000BFA967C727C012EC7D00CD42, 0x3B6BB7FB4507A4FB40BF3D0DBA976759A117DE0AC98F93854DB44D1E59D5C7BA,
      0xA86FFE013CF8B7A08AE0E1A4B3D010C958BD7B14D61AC8687C984999CBD76A34, -0xA67B9D11B06922951C150A7D1A4E8CB82F5302037EE6C6849FF6950C08F7C505,
      0xFDBB79CE227535051BE9C6540478D381C38061F1D637E04C80C4BFA4F83A3BBC, 0xBCE1B61AF7E12C2E4619026021BA47A525716FBB70A87A69AF3E8FC5B0806,
    Twice(0x970C455202313C987E004BA7B49DB651ABF429B9AEC412CE907BB08F4FE11F63, -0x2F26659DFD32A5E9D6F5523B9D9B8C475231BCA4757FABBDEC3FEE0BC740E8C34,
      0x591F7A5D510B998D8529FD4E7273EDDBC0AD54A36355E29A9229A5CD3F100DB3, 0x8A9DEE39B55DD11B5E0DFCDCCFB00F27E99A6F2F36C200205F6DAE9222D3383A,
      0x12CCFD501C85104F14EA3F82F200422141723D023829882379303AA805AEF0F4, 0x1B4328514B349A359D189D2466F4620B016182BD0D8BFDEB36D3FD710772B0AC,
    Twice(0xBC1F834ADF3C42BBE146C8C3D35467280B791CB0B48A6177B8216E77B35688BC, 0x23ECF225F4C0FDB8B34C9878EBE48F4832978AFF418155E2661690533958C010,
      0x8A3E4CB7075848F99A2D6DA39825F671040F2B2E149EA24244927166087019D8, -0x73F98CDE459539E3EC6184B115FE0F5374524D7C0FBA96A0F018315AA1985001,
      0xB09EDBF8A1E670C8316A28ECE332B34474B59B885ABDEDC2DF013A2D37CD0980, 0x9DF822B54E2B837A8BA8319564F929943CED734CFBA8BF7310A57CE0541794B3,
    Twice(0x69C7268A22D38AC448B5D4DA59AA1263F4E36FE3A979D8070BAFBDA702F14C96, -0xEB051F4F92CAAA513AE4BDAF407E3513D054C7257822CE59AEBBBB5FCFB33284,
      0x2BB4F88A4120F9971ECEF42A965794B0136BE6FB45A27FB25FD8A193A005471F, 0x445491386E78D38478A22E329F0750E37CC403733C6994529AA5E24197D3E078,
      0xB3FF7DBE23AEF501216E12F58329D8AB351D9DD68D837CA66C78781E5DFC233, 0xDF4672574D4CB783571E1CDD391114B5DC8343BBDC9D5EAA8318C3CA4733B863,
    Twice(0xEFC098F9B579DEAE6D9ADD81E6AD34C16F3269B81F2E67D38DB6E7D5E17BD89F, 0x1A0B9D02745BC1F183D5F916CFD50C2C00C8FF901F9404EC8C0B2CE4F476804B1,
      0xE0892E8812D33FAAF6737244D7722B8195F9E4A9CB71E522F074F9B80C8DCD1F, -0x7DE14BF5544E1203AA5CB7E8854164F5ABE6405E24E4C47D497D2BE32F418F91,
      0x91A920511BDB2216E9651F3C689540433351FB05527DC4EA95201ECA7B8301AA, 0x8BDDBA7D4DF051EABBC4BDDFC0E044022D201A7E4C05C92A5A2F6B0C9C798C53,
    Minus(0xCB2234C63216D431E1F3FFCFB9656F0EDD2BFC52C3F5BA2B3207D040546D15C5, -0x12FA537480D5A0B82283C86E80D9FE4EE803B332594EFB0CE8CC2FB9BA5E4562,
      0xA12F444462F6A06244EA6A64AD49038893629C52ECE5C5F882A0B9178532521A, 0x455AB359573C012C2932AE6EC5637C58F0DC882E3D699AC9A78E1DBCF5218BC0,
      0x3A41B097F3B1F47679B8EE258ED73EAB4BFE769CF27EBCBFD80ADBFC962C2591, 0x668B37A247A80F04A38FAD09398ACA9B0D04E52BED2CB2EA204E678C6F1737AA,
    Here))))))))
  }

  function Stop23(): Stop {
    Stop(0xFFFFFFFFFFFFFFFFFFFFFFFFFFFFFFFEBAAEDCE6AF, 0x3A41B097F3B1F47679B8EE258ED73EAB4BFE769CF27EBCBFD80ADBFC962C2591,
      0x668B37A247A80F04A38FAD09398ACA9B0D04E52BED2CB2EA204E678C6F1737AA)
  }

  lemma Part23()
    ensures Leads(Walk23(), Stop22(), Stop23(), Gx(), Gy(), Prime())
  {}

  function Walk24(): Walk {
    Twice(0xFCF1523B82F29C2DE448F6D989AC55B2DF8473BF03B0568F47BA0ECB0BDD77AF, 0xA2DDEAE7151E1E48D2F1FA6096DBF3BA31DBFE0A771A0764D6AEDC7251114F47,
      0xF9EBFD6118445DFD72B4274D464B4EC3FC58F88543F4492347E3379DC556C70E, -0x2EAF889BD6D4D5DCDA5E63873AF5FB11AF3CD69E6DCA822C09B09AAA0CF4AD6A,
      0x6981AEC0ADC4022C3012AC6185A0DD9B0958D134932313D276940B9DD9EF8AED, 0x1A35D4F9990DB04C2CA787D4E05CAE9BC3B476C30CC76F67125DD5538402E8E8,
    Twice(0x490C1CE453CA3FD42DE1DD36B26E293A111B987C7DECCAC16FB161186CA125A, -0x8183963C1E880CA984E390F9A7AD566B0074355926A0E81789A0741A5C0698D5,
      0x14D7E90CF073F15697B3FE7D721C8AA0ABA6FCC41781500B8EF40136424F32, -0x521BC30A764D820FCC4BF5408FA5DBB82CCB5F709A8E5E08E5104F7F4C3595,
      0x7B7DC4FFCBED4C10C76C29BFDF82718250AD3BE97B4D778DC31D83418E89EF9C, 0x4D912E38840DC7741FE45A0714D09EA588D49BA1D98C2216CD33174C44B2E5ED,
    Plus(0x3855482B858FF0489054DA3A871A0829EC1ABE06156A9C76D133A74243635EC5, -0x6271B4AD5BE1707A2261FB0A5D9405162C2E0B588F4038B8CA3E43EA8CD951,
      0xC656BFC0BAE2D3C6A8761FC75CCE3410284DB3879D28EAEF6C4820598668F0E, 0x16CD53FDA13C5D6CDEFC4A5345C2AF3672CD239964123C6C8395B15F15468ABB,
      0x13DEA541142FCB5BB5900F4BC9EF2D44C14546438631805E2267CF8D875930D3, 0x1A6BEF85F512C47681F5651D2912FAC5815CE358C428FE9938BE9C16BED02C6B,
    Twice(0x2E293DDE18E6E71E43395520C05773EA44BAD530AB495D611458E2EF46A7707B, 0x4E6E2EC13D7395E84E553580A33994C1DDE6569C9BAC87898AE22C2A8A36399,
      0x852D8E0B10A8D9224E38314BB417602FC49F8974BE0D94349E642B3F50F27D4, -0x182AFE4FC452225009E4F076FA84C46BABD634874FA9242F3E85873BF539244,
      0x1C3F22027346472FAA1DDD7B1AD00E22A10CB302AE191C0FE7514A34660A7987, 0x429E960A772ACDE7E164E0FC29E217957DD4C24443846DD0510BC8B9DED5EF95,
    Twice(0xB06E1D39763A83A57FB67B677D4B44E12D71299C9B00785B1112809177DA5C59, 0x5279C0C64A2CD1D83831C8A2ADB62F501A4A327EC666151465C0369AF634EDA9,
      0x7997978C234820FBD050C7DF0CDC76039EC20ECAAFED76C324DE373ABDEA8FE4, -0x83CC54B7E80023D56B319AAF75CCE03370BE156EBE985CAC3711D4E69A0E6380,
      0xDB7C545312DB194E8C651A291317B7C9C8AB3CC48AB0FA9CCBAF1B9826FE4907, 0x104503EDB8425128433E33EC9DC1368629E388EFE06EFC5DD77E7E1B49EB316B,
    Twice(0xB4A04407EBD4B6A776A7BCF22E2391EF82FCB38CAA323D9D88F6B064243137C6, -0x21D947186EB716E0008C1192D40ABFAA3837D882553123BC71A16198829738321,
      0x7F71C4003F9E2047901B5FA8D4AFB468BF61F78F2F6B60491897E97727E7779D, 0x312F983FB19C81C65F6A8BBD3B711057F708F5D9C6A4C49CCF80512BA7831993,
      0x95C65A08076F8D8A4800DD9725A647FA11B5334676BEE2D9F514F40212559943, 0x51298CD0F9EBEDB7936F3CA5E825FC7B6B7365E75AF348A2922B55276E287630,
    Plus(0x3744B45E624B5E48FF3377F3C07D5A48A62ED058E0E7960D23AEAB1B85B0FBD3, -0x60D3B2F0F3D3BD65F73C82864CDF108FBE4BFC2998A9EB7147FBC7E077EA4D7,
      0xBEE97F0DF757793C61D5FBE85919D4E10A9ADCC36A345C069A8EAD28477863A, 0xC6188D93362B4AF42C0172DC00C388B79FF04DAB1ABD2A4709D508AF5963E9E,
      0x5C6D3F275F8586C9F9D495A59D6519EAAB7638908E6DD2E2617E9ECEDAB10268, 0x662779F0687CF46F8D2D7105A90B7ADD59950E9F9E4FE60AAE55B22F8E5D924F,
    Twice(0x4287AC902CD67C7E2AD5BF1085A4583C2156251D39355AE4D1EAB8AE366E1DA1, -0x2F0379CEBDCF8B01862DD9EC8DAD644FC82F738F0C8D1C90F65EAE230C92023E,
      0x114A3CE1CB7FEFDB0B9769F32FBE65B5A04A7C6B584B4C1309FBA8E49241A3CD, 0x12706CE2C44F82FDEE3ACD5FD558C6FA97961079B1E71D2C22CAF15445069370,
      0x157992523F500D24A0981C07238B5097FDC7113AD4B7850C48E2513ADCE9FBCE, 0x64B9EEBFD9DBA130D1A89BF7350985589326813EF813B3256832A54357D1B4FB,
    Here))))))))
  }

  function Stop24(): Stop {
    Stop(0x3FFFFFFFFFFFFFFFFFFFFFFFFFFFFFFFAEABB739ABD2, 0x157992523F500D24A0981C07238B5097FDC7113AD4B7850C48E2513ADCE9FBCE,
      0x64B9EEBFD9DBA130D1A89BF7350985589326813EF813B3256832A54357D1B4FB)
  }

  lemma Part24()
    ensures Leads(Walk24(), Stop23(), Stop24(), Gx(), Gy(), Prime())
  {}

  function Walk25(): Walk {
    Twice(0xBA3A1732D8F416C8D30C483ABBA55C6650234C26CC68EE2B4B5B9DBE94EAC59A, 0x8D246238F874BDAE4FCF75E8763862B820F99B05EEB31F77362EE819C0829050,
      0x877876E468672CCB78FB46130E0E40F8E83707D69BD15FCB5A3096F650ADD552, -0x1DCC2339DEB757967BDF9293914E502F66C276CCAD7477CB147A7A4F6904E525,
      0x3E6FB8825FC86CD3EA21F178C80DB94765DD94E6182B9CE70351D54613A586FA, 0x75474F302F2E26E1040450C5C21EE4BB4CD61198AB848778E195E21FF75D3458,
    Twice(0x37775D936F164F8A84A47A9FB920758D15245F8C54C93178D1C4B5CAFE4AA748, 0x52317AD32F87B39379E368675BE05B49F56D0D716702108FD9738F5FFDF2B2C,
      0xC0481DD7B01508A716455FA5B93260C78A9925E10833E3F5817D3D08B687A95, -0x1C1DC17D19AD70D69F089EC688D3A80A3AEF56DCC4A5E8E0C3D9BC0495D5BBA9,
      0xC0345E6A332ABC4C820AC910821BA56F7B874ED568DB814148E83644E55FC8F1, 0x83CFE84D2E5CD5B3CF8F1EEA5CE40A12ECA67352BC7503A23795350B9320ED37,
    Twice(0xA4A58801D8546D2F02A4050F921DAB5916A5A5DD44176F76551F3EDBAFA49FAB, -0x1075EF14E3C08D81A28DBA45C08B1E06F150A22869E2B5A407FFB539219A28C27,
      0x69E4814AF7CEFE961574EF2DEDD08836ED7F78BBE9D0A70AE074EFEB8D21F0D6, 0x5B74D172714BD86E31661E5A019CA28BCBB48EA45952B7BD8D7B39BDE96048FE,
      0x32010F12C0902955ACDC75B3E601A547B3212691C645EB0F8C85A4FC94766B0D, 0x55F1229B81EA9C07076323EC016824B167BA9ECB8C71F03103C54E041497F773,
    Plus(0x55A917BA6B5D45D33EA48131D175456E0B896CA85247CC49DE12458F2B48D505, 0x180140ABE5FAC4CF1D77936B71BF556B78840DB303A307C719815E384B17A82E,
      0x1CA9B97221A0B88F6B9E7990A405B292B3474A258AEBE6CE4B0CA3DD67281D11, 0x9A9B3F14758C6E7EB30E6309231CDC8A4BA7634F37AA5F91364973405A1F299,
      0x15204BA630E2530B643E9AD6385E3EA18BFEC0AACF2EC3343225908E36B9BD55, 0xF705BBCE0FFC5D3F8B787BA9C763D0E2AEA597D19D0072D100929C4AFF705F0E,
    Twice(0x370E8F0214178E23448C3E2D2BF282E330BE2F2967A412792452A0383DF0B62F, 0x65059DDAB4513B38085159C47B874D0DE5ECCFC73BDD33EE5DF49489DA2F27D7,
      0xBD74246D8BFA41D560D11905171D2632E789E105087F2180C99F74618926901, -0x8437A218A36965A83C5C21DFCDC93BFC3B305231BF3E2D9A481FFA8628EDE2D,
      0x3B8CB57BBF18B91D243D6CDA29AF58475E530EB2442BEE4DC6030820D9161EC8, 0x3A67030248DF1F93FF202A5046F8EA0BB9ADA2E37B385CC681F735929E441118,
    Twice(0x50CF9A814A661783423DB02E4A5E06E785FF9A267CC04FA814022A9DE2273796, -0x4AF6002E5A4AA1E94727092DBD0736A11603BC9A999265F126787DD8C7F6560,
      0x198268EC08D5EE9AF4787A29748794B70B0C139D925C6C7DE45E73FB2E6F413A, 0x3090FF4B17E56771573A4C48D28A63B53C82D396F8F7E398B518F54039FEA9A,
      0x31EF101ADA872621F7CD15CBDC5E766964C51424046E0594875A7CB758317CAE, 0x6739B90DAC8E5F1A4A9E50E5029421E9E9551FEBAF3B80485C82370D81CAD5DE,
    Plus(0xBD812C5CC435AADB43C291FB04112777D6607F416D48ECCA063D66C94D240D4E, 0x35284EB41BFC06E435EB0C5EE11CE9AC95E24FA86C2785F95E50FE8431491A2E,
      0x8C47FCAEB6E5016E02B7FB6749969345C6169DAEA9E071AF556D3DF5036EC77B, -0x69D3A33ECD337EC708950D87753F99C7DE93EF4EA2AD808FAD406C9687367425,
      0xC0E4E84498489A714C6B7BFAABDC4116DE4DB0F226E138551BACFF0B553EBBE9, 0x48683E0B9F0D0B9DC14231F638899BE10FF716313DFFD4D3871337AE0DD8A5F3,
    Twice(0x15ED51763216385857D89C815309EBE43B35F69A834AFDB5CB1B2CD34FFCF80A, -0x1A7A121FAB6BB34B2A2C65AE5AF7729B35CDA7ABE422B31021F6D108B61205B79,
      0x1E0CB5D52FC64A717ECB9B74BB3FA1FBCEBA4FE302A8A0736405FA6D5884485, 0x101BD70B8FBB66E2614942CB176221BF9C4A05C7DA5FC3C672B3D729E1072DC7,
      0x4D2B3516BA0049854E67D41695EB8ECE643C93D17E0994EC139BDAEB2936827, 0xAFF453544E112F0D859B53EF74BD999079AD82B5D367E4276892C886635A4418,
    Here))))))))
  }

  function Stop25(): Stop {
    Stop(0xFFFFFFFFFFFFFFFFFFFFFFFFFFFFFFFEBAAEDCE6AF48A, 0x4D2B3516BA0049854E67D41695EB8ECE643C93D17E0994EC139BDAEB2936827,
      0xAFF453544E112F0D859B53EF74BD999079AD82B5D367E4276892C886635A4418)
  }

  lemma Part25()
    ensures Leads(Walk25(), Stop24(), Stop25(), Gx(), Gy(), Prime())
  {}

  function Walk26(): Walk {
    Twice(0x9F0934630DF8621D6A3C6C02FF916CACCB0616BDE61BFADBE8E0E5AED2AFA375, 0xDA585DA451482E10E7434BBA4A1807CAC12E818048B35C768D0197DBBE710D73,
      0x62CC6F67C509E95826C3874943ABE01E1B34E1A7A1515277E29D0F81DD615461, -0x1CA88593FB8D6B173A77AEC24AC38FF2C398B4DD4BD3E44DC85017800F04C9CA,
      0x32F44A983FDFC81F9A4446B0AA6D39A2433544BC32890E8D9FAC2D5A51A0695C, 0x142054A4949028894AE64F3387F36615D713404186A4FF8E9541CE5A056E53C5,
    Twice(0x7E719A2B2BA07AE6D322194E523DA6EEA7EDE79A3BE1FFB3FC12BDEE43DE1167, -0xA8B52AAD7A50B52DDE6510647F2020F540883A1A4E85E5826B42E9B87C5F576,
      0x3E74062BF5E6746C7AD24276CA76367E9A9882BE252BD2BCC28A08DB37EFEE1C, -0x2A2A08FB9CB7C5AA8AF2A7326DCBDCFFB232BE3345A530170C43B9BB492B7186,
      0x8852100B59F344A5DA2462967A73A86424FDE8EFF20521A1CC77CF49F13DBD95, 0xD2FC2602B0D516972659D99FBEE83123088FDBC8CB6C5E400F64E1E31C72BFE6,
    Twice(0x6041BA759EB9A87F0BF848FA65AF818D3FCFFFAA0C80943B90C7449163936B3E, -0x3B1C6E296E3703EDA44455FC694981D80E9A4EFA1AC61395AAB1C79D969449AD,
      0x24315CB86E94F9571A749EF85FB69A9F046003C3C7246378941A9CAC430C3547, 0x1F7EB90F43D2E629AD0C2E815809045FCDBB5412FB43655EDDC787DB60C94570,
      0x348ED1709CEEF43FB91B6F2100F419C3B906C5FA564F4E78A2C44A31493CBBD1, 0xBB0C5E0D14D4A94F277185952167DB14B94D9104E1949125DC8456412F369A02,
    Twice(0xA6A11F381B330E0ECEEAD13193CA089F4CDCE3ED7C19BB361CEC09CF272E6DEA, 0xD3207EDDF34ECCD95264EB1EF785BA40E78761830B8B35F5A8D5E218682B644B,
      0x6C7559E50BA70F55299A56648BBD07F5CD440DB3FDA5992995B8580D28FBA5EE, -0x75AFC594B772008A41004134F2EEEE395630593282BD2E54E90007B6FC7D8A47,
      0xE95D6E1C9FD8291DD247B53962D73F534EFCBC59D8D81B8FC63A7E19D133E390, 0x5DF18B5AF183919B4406866AEB31E093D70472FD950A756745E949C574840571,
    Twice(0xF46C2F33E3C1237340AA05DACBFD10F83F8C6AEF5265FFC24313453AF50D9F95, -0x1CACDC58429B1128C6C0680BB762B3C1ADAA6EF6359F5AA68CE7197283D3D4C6A,
      0xE95E67B2C6A46EAF111B32DD14B8F0443E041E70CBF2248C2463BD7F3BBEC704, 0xB7D2CA34FD0F670550CE0AD852C4D5C13407348DB5C495671A7872C51296B1EA,
      0x28D5A32E04C63C8D89B67E19F92B11FA1875C4C0EBB20C458AD3B3142B4A2BDD, 0x27FF550A06DC3CC2B1DEE4B81DFDE2B8F7C27566C382148A051A0DD0D9D010C8,
    Twice(0xDDAE855B43B0804EEF5626BA19B0872ADE9F6DB236626D5F6B712D8485DE4F93, 0x31BB01C0C042ACC72F4367029559D26982BD7E3603AA51474A132A14E27FC7BB,
      0xBFF6C9392066B6554B3B31A19EF1D2BEFAE9EDCABE8E79202CE613F11D1BD419, -0x6E75BD72F2E737F867D94E1A758C4E48F6D8696EAD71D6FC0F41989F232BCAA6,
      0xA865051D205A77590FCF7F8F8086A44B77B601032D8A5CBCFE8906759A502A18, 0x22762D113664AD234F22401711C6EFEB3F655D46416925761D89E44B34005AD1,
    Plus(0xCB8CC9E7E1610E7AE147495B1CB99346CD16D1FD1A824D2174A96DCDEBCF443, -0x2517C7B13AF82EB0A8CAE8D6169DC3CF0BA19FE2E8E6858D621A90BAFA41849,
      0xA1D895A3344C6111A3FE4C1334FCE2ABA89FB81CB500F0334DEF1350913154, -0x476852854F8DD437AAA45CCC028323FFA94E04D66160B3485B57D9C33979B4,
      0xAE01F0D426FF656115D042D446FF3BAAD097C3A137FFE0D30A0DAC7DA84CC96D, 0x75F05A81F160DCE90C9014ECF4594BB3F4E46FB4247D9825E29927C1943F75FC,
    Twice(0x6EB0A4C6654101FC19A48B24493BDC36F8B080C3ADF635BD66AF6EE0B562F30C, -0xFCD69A159C84AFA09237EF72AE294872B9D49365DF6268D98C42EADC232B0A55,
      0x2FDC477D79DDE29373D318B7EBE6A95315DCE61F8EB42A148F71557DED438150, 0x4064AFF561B3E341730826BB3B7BC7AB835437FCBF60417F6C3FF35B7B0B4D08,
      0x1914BB41227D9D6EA810F4704CCCFA474F0083ADB49CBC1C19A424D921F6B806, 0xB3A5E9ED076947740321EE942882BDB8D11F5D2E9F5B0414DF5E30017CDD1B60,
    Here))))))))
  }

  function Stop26(): Stop {
    Stop(0x7FFFFFFFFFFFFFFFFFFFFFFFFFFFFFFF5D576E7357A4502, 0x1914BB41227D9D6EA810F4704CCCFA474F0083ADB49CBC1C19A424D921F6B806,
      0xB3A5E9ED076947740321EE942882BDB8D11F5D2E9F5B0414DF5E30017CDD1B60)
  }

  lemma Part26()
    ensures Leads(Walk26(), Stop25(), Stop26(), Gx(), Gy(), Prime())
  {}

  function Walk27(): Walk {
    Twice(0xAC1E02A703BD8A93B2DB8C85F7AC70C3B53BCD4C94987A57983FBC4B5A5D100A, 0xEA31E630C93B95004E2778F4EED1958493799A32D719C0BA5AE94373532C052C,
      0x73B857150C329BA7CA78095D1C24021D785C9FE5E074A07B278A4FEE0F8CC6FC, -0x1D4F6B962109802F17AA579FA68CAFF623168B720E4281E52BD91732C76AD6F2,
      0x44AD01A3BD3895D5B1571F99D1DFC09226CBD53BC8B77C444A072FCAC49B3814, 0x9F648D56DC34210AE0A67310CDB2A858E4DE0E485FB332EB88431C560E0B282,
    Twice(0xC482786C25D5FD584D48080910827D7294258425DB3B5A72DD6161B0DA195533, -0x27F9D25683A59FCC160E48E6F7BC9F4A4FF15DF019B16747BC22010BF558D05C,
      0x96D80AE4206BAA6D13ACE285DCCAEF24B58437637820F8B107880F5449534294, -0x8DFEF6533DA481573A5AD7F1CBFD73A872C41C70342A975A5E3D5B06473BD88E,
      0xFDA8AD67869D26CAF3108C6513ABA3DCAB966B9A07C47395E1625766E9DB8ED5, 0x56FCA0DB9CAC712599ED1739B68946B059685935D00B84169D93A36428417A1D,
    Twice(0xDE5971E7CAED1E1A33202F0E34D034130F711B0228874BC2328517F5F0919B93, -0x25AE9919ABFF7255FDF97E71AAE8BEE84F332B151767713A8B99B65C8BD70D133,
      0xC11F40CE69CCCC198C3DE18A21D4E3DBE52CCB41B927FDA802A988728E0E7E15, 0x480A2D303E9391A23A37D60B6749F750393A3E94D6F7D6AA07255AAF90ACC8EF,
      0xAAB770F5C4F9092EF268FC8AC277DBB3C5183507816491D689C3145A8CA966E4, 0x5DFBFF5F9A727BFACD079F4B797D5E61EE4B64018915DE2E0CDFE9986CA63865,
    Minus(0x94DE1B62A13FB94B31C34200A8203819A5523751338859763BAC1580594354E1, -0x1C7A7740E2B9D8911AEE191F83C0BA377207E29DA630DC25CCD3474A08484F82,
      0x5691905D8C6F4CC79B6503F5D2AB5FD82F67610E8FF0083977ED657B82C1EF86, 0x30EA3C98E7A1A756A54CA70170BC86B1E08A7B5D0DA6FD99243B610CD0F046BD,
      0x569997824308E2D37BB640EB411065F33A6D24A11B5C0A2282C653E85E6C0DAB, 0x6BF4242959ABD91B7675EF1B455FE06A8BF1517987221FD56A381227E874DE01,
    Twice(0x40516C4575656E7E08CABA929E2CDB17434A15F0E0C560DB36084174D2B0352A, -0x21A3EBF1C7195102AA5E280D266B46BC4EF85B76DDFDC2EAB6A93C3B3CD91E59,
      0x1028D0086C71AF5503E4B41EBDBF9A897FE01F49A0CE465F2F57CB2A8421805F, -0xE8F9D3A9B5DE9FD2FC19BB2C98D8D9651CCD2DF335E1B7F443CFA1D6E4BA857,
      0x908E50A6800F4FE066B6E23017AA327BBACFAFDD10C4C7C34F58486293CD3A1D, 0x65BF501555CF23E5AC3E877F313CB1EB8EB2E0F4B6DC70DC5386D3293648C944,
    Twice(0x81337F491B421A272EAE9A9FA15C04B2051F83C553346B8DD455A58B813E5244, -0x8E2D7F6D4F58A52EDB6654A6FBB30C9573BB525DBBD963A41301461ABA177C35,
      0x4134F0A3A3E3189E0D355EA61BF07AA8BAB278794F6EA825B04657BDDE2F9C0B, -0x13799E1791392B71E04043A769039EAB0265DFD1C8E2E933C9DB377613D44FC6,
      0xB724D96A375439AC5191464756CFAD8288D51F4216D823382E14C2CF4777B3D1, 0x6EF80E3CD55E5E336BBEF409C613D33AEAAE6F1D99DF11F45E1D59A99A96C846,
    Twice(0x4DAF9E6B8DA1AC05CE09A71D6DD33BDEC1C0AA06DA4A71DD4B99776A9EEE2FC7, -0x145B7A35FAD9EC54BDC66E1C8F9968DBD52559184BEF7E06788E5A47876E1F121,
      0x17931DC6AC47D487F1B9F4808C82D633B0583EBFB9D882056875E4575DA796FC, 0x276B53615B003C8F2FD4D4B50C05FCA7F1BB5B7AF6D0E278E105E091F24FBAA2,
      0x353EBC84CBF921ADA170DB6F15E9E3ABE51D67F924CBD4FDD19DF62C60967CCB, 0x110972CB7452E7477F74739AFC28F18AB229043DAA5A7FB3C3E7A0CDD5705BA6,
    Twice(0x6EE32ADF9BD905667F6E3C993EA80794603E47B190AB3D884DA71F04E5688561, -0x1276C12F3D2B311ED825A10CDEA5EFF6C69523ABF0ED3C64E389E821B3AF9411,
      0x3008026D39AB05F7C20648799DBE1053A662A0570BBE0ECEA05CE108B6EFCB77, 0x623F9C36C3E43CBD5FA86BE8E942F48FBFFB19FD238ADF64CD9A576079E3996,
      0x271198C3CB4E0B3A4D127112E159CAD0FFF0B92B737608F0BDDE83B496487652, 0xEB422C9F301C4CE219507B240FED9F4E8832164BEEF8739F62EB681A4C7EBAA9,
    Here))))))))
  }

  function Stop27(): Stop {
    Stop(0x3FFFFFFFFFFFFFFFFFFFFFFFFFFFFFFFAEABB739ABD2280F0, 0x271198C3CB4E0B3A4D127112E159CAD0FFF0B92B737608F0BDDE83B496487652,
      0xEB422C9F301C4CE219507B240FED9F4E8832164BEEF8739F62EB681A4C7EBAA9)
  }

  lemma Part27()
    ensures Leads(Walk27(), Stop26(), Stop27(), Gx(), Gy(), Prime())
  {}

  function Walk28(): Walk {
    Minus(0x1DB62086D2280BAE363DEE77836AD59E0BFED1FDB0180FDACDD7F5CDDD26E6CF, 0x99864A99B6308C3F2086CE0654AE71ECEA85C6D77D3C41C1DE9F3F9A74E1EF4,
      0x372C4F0CF71DF20C55CA973E21F941387D0E58C210F029D13E2DF466BE9EC2F, -0x44B2684BBBC872EAF9CA556F0F3C19975E29A798E219C18C5D6922CA6F22254,
      0x4C101C13F525F39482EA96FE4EBEA2659213D89039027558D3C310D1E60A6CD6, 0x60A785EA66B156194B162F57FDACBD5ACF395C4DA01581916759247E44835607,
    Twice(0x1900957AB1C62A54D064B1D854F42FD14D64C316BFCACFCCBB5073278CC6D4A0, -0x30EB8C06AD8A399A2828E818BB97E1B691022557227E5BB7416CDD7DAD43FFD4,
      0x2711D324E00C2032A4E5E16E1F49096CFB573FBBBED2EAC91FC30DCBB9A8B32, -0x4119EE58BC49F3926AFD736872F8B975D1F30737A3C5BD4EAC62A5546B68871,
      0x75B9551F13C6DDEBCAEA842E526BEFF2AC5866087D930B41B0917FB2C4D1C426, 0x69340F0F923A65E84968BA5D3710D2354EDDE0967F9540AB6D78AF78441920B8,
    Twice(0x4B9AA67F5D122CD5F407198A72C371B23B17A20998FD57407E3C752F686252DC, -0x64452DA231CBFD5DAE9ABF4D6D174D68A8F44A4A672D710930C387D24056FF14,
      0x1653FAFB5E0E0C345A69EC20F73934372A7CA9A9D1FAD885665E5B07EEC7BDE7, -0x150B1B7B2391FC7B8447D3C0039BED61C531BFC1E78577F537F7C627FA0809CF,
      0xBCFA662D89F7DA55E8042C049E4F08401227480CA47DA5790145B5A609E9E35B, 0x3AB64C6029004875BC4D5EE4B77FFE739EBC73954453D886546E8B51EE35A4BD,
    Twice(0xDC9DAF63F537F348AD194598AE0480C4641E8A3C103F36DF382DB1FA4287E92E, -0x13D5089A9CAC98F021E0A8A9FBB47E0A281D08FAFDE5570899A6E6E19D55F9611,
      0xBE1F6694663CC10F636F6B5FC2CF8E2A2E90F308AB28168CBB808F53DCC16C28, 0x414B89D82164CF4D0DEA9FDE8E5EDEF58EA85FA3264EA0C04C1EDD7970A0270F,
      0x7135E5AF61AF0FB2EB50859BCF60CE17A06F5839F521D80F7D346624E542C236, 0xD8B542921EC6FA9E3F3A36675D7030E0DD336388A24A2CF097A509949CB50D28,
    Twice(0xCFA5BF7570BC25F4BBC9B00FAC3EA75055A13F3190124F9432626507528C15DB, 0xC95BDF1C3538CC3D5AC2F16E5B32AF1CB59CBA4174AC24D6D51BFA83AECEF6FC,
      0xA86D76F048E40C03B36D4A1ED1389F37A3D02F75D29DA3372B0AB85CE722F017, 0x5376F7617D0FF3BC4E725E46E5395DEF0573F9AEA0E1128E75C39A881C74CC0A,
      0xA4F7192504CB0BDEDF2C7FD61F95005AF0B5A3DC45E10239FD5C8FD87366CB4, 0xF65A1A5AC9783597AFBC02462AD6AB807AFB92A702E8C80D34A331FEDBB27538,
    Twice(0x6634246D4EE908374359E885D8A45BF4D7E5431C80D72438093404D17ECB459, 0xB0C59E74174ED60836E926BFE14DC3E5BCFE807ABEDA9C816DB5926DC8F9EC0,
      0x28CD97A5EC78AE15353260F364DF8673A1E08B65D1A400C10AA1423AFB18B2, -0x54B51D14753D255E6079B828E115645D28F1E8C72E24E1B46D8B9117504783E,
      0xDE7C5CE7010733B1A3A1895EC7A3E1DF953A8415858DE3CF93E455490B01ACDB, 0x4EE82D3A645EC895E7209A5285227EFD108EEBAFCD3714B9F8845D5A2E85EC9B,
    Twice(0x417F0CB3F44A2338EA7B03192A209625B1A7A86700FA2738E638739270143AE7, -0x21BB38F771B6C46563116F2C05E308AE004529B47041052115F5B3F1312F5BD7F,
      0x10C1C380FD3B64D855A31DD02B67B382E78CBB9787EF1C871D7CAA7B4FE730F2, 0xCF44E9A6F7E101536D49164B78A9F246AC3DD3A2F959F0D513E3AD31884FFBF,
      0xABDA2F1443A8D71097799F42E1F4390987802963FD8730BABF05959B3CF3EE4D, 0xC94ACD0826EABAA36E584934C9F57D56848E47B8496AAF2AB2260BF673B93976,
    Twice(0x7D9391121E69533105D5B7687E5D4955ED5DEBD8D790E24D70228C240958B609, -0x949C824734B490A43D19DBB34F42BE479916478A4734CD635B9E2B2C19FFF501,
      0x3D9970BB9EB74FEF04A97EE26FD8161056E382645986DC9FB1BCCDFE8F97516B, 0x14AEA313E8524572C647CD256DCD60225CCD601566624E8075D35364F8BDC878,
      0x81B08AADFEF66EE97AB0C32DFA83F9CC4AD0930899BB598C45E2B4C8D036A912, 0x8876394E620659E5C8D2BC9DF989B2A103768EB342938E5C7CA08A5A19B83995,
    Here))))))))
  }

  function Stop28(): Stop {
    Stop(0x1FFFFFFFFFFFFFFFFFFFFFFFFFFFFFFFD755DB9CD5E91407780, 0x81B08AADFEF66EE97AB0C32DFA83F9CC4AD0930899BB598C45E2B4C8D036A912,
      0x8876394E620659E5C8D2BC9DF989B2A103768EB342938E5C7CA08A5A19B83995)
  }

  lemma Part28()
    ensures Leads(Walk28(), Stop27(), Stop28(), Gx(), Gy(), Prime())
  {}

  function Walk29(): Walk {
    Twice(0x45822432CD567C9E3E8D2313405B46DE3874F1463DBDBCDC0AB428B5E3F1397B, -0x7AFFB6F9224FFE21BA977D6D56DB696ADA009CE83CCAC0A5F069ACD454FE8BC2,
      0x12DF69AC2B677ED90BF86C7588676DF0F932994036645736C3E2C2705EE5DAA9, 0x7EE90443AE66C1AE16287B349AF4C43139763811255BF43C00070E6FAB829AA,
      0x6479F4BA92F859B76978CEF303389C4F35924D6E321316EF5887E71CF3482DEE, 0xECF179774902E6CC8B5C5276850ED0B8EE5B0E00694EEDAAFB0FBABDD802F681,
    Minus(0x8E7270B15AE85DE67BEC98D3D8C62EF58C0AD384EBBE8533817A850CFAF1AED5, 0xBD578F2482E73ABB219A2DF68716EDB8165E73C5F6EAA107FFD47B7577F8744,
      0x4F43282D506A69897A849259E761DD1029BE8449F1D8B619BEA5074B95F80630, 0x2F3ED20517EC2242F13534ABE8FEA5284A8E82D12C8B26DA227FEB4F1DFCC160,
      0xF91A342F3E683BAC39D6BA71606F586545E1E0C3360F89660A118C9F5BF94E3, 0x3DDB80E975BE421D1E224FB8B2AF83189F9CF1D3FD2168708C44198435A2D906,
    Twice(0x8474E018B6AC5B589F4749E1B38D6ADC60A22C9EDDD99AFDD8E8D6044A4D4E98, 0x3D2BAC35106420D10D12D2FD78B403BCBBC6B84D8E18AC32E18B2419C4CAFECB,
      0x4488BC7556F28C768F179A133684E7A8061DBFD58B882F3703A6C410BB45E11F, -0x3E1FBB7B3C12011EC4D130AC8214FAA77BFF432818C5376CA83EE8B0CCFEE619,
      0x87A2EE0242CCC236378A6E820F80AED4CE33B04584C18953845750EE09C1F7C9, 0x336CED8552F14E0BBFEAB7840CBBDA7D1B899BA71325E5C485921D399AD63501,
    Twice(0x8DF6AFC453659936EAA14CCFA4CBD75A49199A5A40838876176E6DA39D169BC2, -0x9E8EA28E492775D07582AF3DEB4B499D488977DB982C7167864906CBAB322041,
      0x4EB9AB5489DC329DAA37572805C72F904035FA8BF44B8D9F99E4B55A46B3330D, -0x246094036AC134E9C414653AD4D4CAD513B44FF7C8AAA805732A2BC175A16F33,
      0xC93C1B00BDEB3E4962DCA57A3DFCE74D11824DB2F164A366F266F8CFD67E640F, 0xD790EAEDC41B3CFEB890BC2A078DF7F8D531AAFCDEC7141C503AA103FFB3FA50,
    Plus(0xFF5CAF8DA8DEB38D5833F1EF0047EAF5331A5E49802CB29843C99257FFAB9B9E, -0x4F4AFE7D0BFDAF08C1EF1DE8A5DB4B050E37AB17A3FFADCA491B6E81239B1C46,
      0xFEB9C74ADCA005089180F6FF9F2CDC723552AE695A53E7064BFFC28E614E8133, 0x9F23AAC5FE7C9F95196EFC972359C17177312B15D1391B5EDF5452A92FEF8691,
      0x29B2A9955317107BDD2BD03FAA821DA45BBECC9CD72DF5C4B5A1D8DB76D14D80, 0x377814656CD36D9934081511184DD683FD878DFF026F84602E0796AD4D6E1653,
    Twice(0xD8D4C3FB404A84F9A0146FAF112EB5F7B8482CD2D86A4736DFDB78F4BD319BA9, 0x4996B134763594916E231C0B03D631AB7476DBF50635FDAA5BB7EC05603B8A4A,
      0xB7A7BB8D2AA8F65A246E01DD6698220E3CE7DD307DA950CC2C251B207899F1FA, -0x43D28988E2B41B7C8FEFC4A60A1D5D974E735962CA541F918A09653E1A71CD28,
      0x79C59C014E469A3F7F63AF79475C7C6244639BBC0BAE6F7FFC6A3ACBD539F5AB, 0xB59C06DE63F2084C981F3ED26E8AF1B9BA22AFC2DB9205594B034224261DE6A2,
    Twice(0x4026935E27333C9997ED5080700D1FE587B0A10E52F3668CB1FF2E53BEF165A0, -0x52C073301D230B4BD976530FFC4248F55EBA27E73767111D073C4172319B8EC5,
      0x10134F7F2862852870C94EB23AB7A54CFF22834FDF2621210A0E34D8B7FE8DBC, 0x13AD2F5714BEC9BD0896559863C59590ABE8FBB92A93369BB6E9F92435DF0C49,
      0x2B4032A979726FF75C61EA2F5CF1515E2667D28B573AD363F39A6374879EA326, 0x64F2A2685F47AA90879D53C31DC75261AB11A3ED3B6DC4D3E1BA31B9FF70817,
    Twice(0xE91116989D2C29BA1C402A42220BB6AFAFD7A1D89C0F7CB6F1415F6B30D72782, -0xA6EF1000EBAA5E8B8B92924D0C6E563AA2E77D2392E0B82FAD3898A1E7B8170,
      0xD4301C45D05DD9D0EE414A1B37A4F2B9C51DC488CDD45D74A929D6B2F3858A45, -0x8EF58CDF00FA52A1A755D784880889D9D8AF2D6C7D99F14720B35F775653A198,
      0xC846DD9636A5CD2C03743B9A02A00CA1FD959147DD8F97C305800A9F73DC490D, 0x58497A09399BDFB6664BC9AD5BE141F74FDE899F7E000E3E596EFA3EA47D283,
    Here))))))))
  }

  function Stop29(): Stop {
    Stop(0x7FFFFFFFFFFFFFFFFFFFFFFFFFFFFFFF5D576E7357A4501DDFE8, 0xC846DD9636A5CD2C03743B9A02A00CA1FD959147DD8F97C305800A9F73DC490D,
      0x58497A09399BDFB6664BC9AD5BE141F74FDE899F7E000E3E596EFA3EA47D283)
  }

  lemma Part29()
    ensures Leads(Walk29(), Stop28(), Stop29(), Gx(), Gy(), Prime())
  {}

  function Walk30(): Walk {
    Plus(0xB9431BD34B02ACED50F20C6257E46301867C5A638CDF4F97D6BEAABEB0B9D37B, -0x38D534502C0E9ED661C69EE8C3D1D68F85F1E33D4994EA193581D81ED0529B54,
      0x86120FCEF609618CD013E4395212191921FA18FC11F719E13FD058581C9C0367, -0x1B001DBDB801182F34CB99018F64476CE0251724C140EEC01827CAA3714C9B79,
      0xED9634A7E20EEDF6BEFDCE7FF76D2FE378C8876D9CEA93A37093EFF21B0E988B, 0x95AB171125C2F49CBEF93DD1C70B5B9F49C59519E3ECFBC2415BB714D19BC92A,
    Twice(0x9B5CE7F66FB114A71E108C251DF1485AB6F06B1E5BABF4062FEAEEF8390F74B, -0x28A23C3DFA4321156B8A4C3CCA96FD51F62DE69E93046CA39FF758CEB6A4A8661,
      0x5E49A29BF68F6115A2D9F96FCE7C7C9DA5548E6B38C3B667F5D15D3443C9EB, -0x60FBFABF9FCB35895FE2182F70E5786D1AD2513B16D8CD7380CA355BA12E7C,
      0xF7931B71BD6A67E7FB47973633283EB6E0CC448EFDCBACA935894FF325DA38BE, 0xE80340C413FE97D7E7576CA033E14F0A4E87411E9B4578A6A447C3F2A558ABA9,
    Twice(0x39823A814982236EE6A11487982E893D758C2A2220C8B90DDB245FCF7DB25E13, -0x2660A1A491F529C433129AFFB2181AC322C7436B27FE21596DB4E180F4DF9A3EA,
      0xCEB404D0B69728D81A7675FE8310666722B9E3C623D2D97E4A63530C9584218, 0x234841DE307BB6E49D718B2A92C00CCE5973CEDE4D56201C8C13CC25BD161030,
      0x5A840398A1E667CE83A5B4DC189E4E8AA986A00739950F11D9EC8A41A11DC185, 0xB555D8106F30325012D4AC66954C2C56B2BBE2A24E4A4409FC7B2286C440E2C2,
    Plus(0x10A640B7D9B34B0C3AF15C9366CD9415B3238D3589605FA5986A80406E67B91E, 0x207EDEF8CE1146EB58954073E02DF6101B05248167D2C10B09328D8848A2FFC,
      0x115340EFA012EC9783778583466DADAE158EA73E7B53B34D318253C9669EBB0, 0x51EF578546B4436FFF7E79272A08F095B216CCCC26593D8D9828DB687BC4F5A,
      0xBC6D550FEA7C7E395D323F01A4BCE0ED0B0B09CEEABDEEF0B20D86996270117, 0x3DFAFD5957D34706828CE5CF57930E4D5E1B84642E5D6EF893F985238BA5FE9C,
    Twice(0xED6C0E2FB9FB629821CC78012ED56697D5579C55A0CD895F5CDFE8775C5E21FC, 0x7156F970DD27EBF6C5E39D2CE0A21C59E7994B7FE5C479B58BA3AEB475A7F7A3,
      0xDC313FE05769A1E62F253DA0950F763FF5DC88B9C782D4AADC608ACD9BAC6549, -0xA3E10C62E28B3D53B7C230B28603A34AAF1BDB2D9D14E8B48513FA0FCDE3A5D0,
      0xBC7AA46CCAEBE673E63F83BD6A2138792F4C8768C29A8188855492770A33797B, 0xDF831FF46CDFE4DE7272944BFFB4736D24F438435668BFAE9256EF33B60ACC24,
    Twice(0xD3965A5A9EAA7091A9D00594371BE33806D078928F6862337D390C3C94B22E2A, -0x2ED462A5F463E869C9AAB305372563FBA0BFBA6CD1935644F0E3450099218A75,
      0xAEE1313F63A2BCEFD1F44F38074AC6D52C4EBB46C87840816B8E66501082D123, -0x1823853B5E47A2DAF27E00C1ACF602D04FF5C4C700D0B88F96FE627B789A273A,
      0xD9AF42439992DFF62A960A0B807778B893CDD7B8AE84129AD13A38D8B9945281, 0x55071AE759C8C0A224C586232ED116A5D111D1D033A6F7CEE21229A7A96D086,
    Minus(0x989D5562E747261A6020D59D7D938A23A5A3BEE44BCE707FEB3A761F414C7513, -0x3931F933904382EFB841A6923E18FB4B81EE178B3E6BBC4F23C329931DF5C584,
      0x5AFB36174A6EFE4F313910823111C7F40347C1A547A76A0537F291EE8E86831F, 0x67688A1489D0DDBB96E1164EE40F9F8D8734A298BD75A1DC752301709897651F,
      0x2C3979DC006837FA9F4404B3F4AD5B4466532D122CF986D833CE813C7DA05E9F, 0x535504D53AB4CCA4DD570CD6761421F8C2B6B9B3006F561D38BB3AF099DB7E8F,
    Twice(0xC39FB3FA386E4C75B1C970948BBF5D83647F7FBE31914B8C887FCF6DCD147493, 0x687011C34981D88E835C4A6EB0AB746F167A36AD2D7E53AC5D49DD3C416A22B9,
      0x957CAFD0415200FAC9D61734600DBFC438168E759CC669E25A24CAA58FED07B8, -0x3C6BD3BBD474BEF3BCF058B5E81CD08852642289405521A306A5F3E906EE9206,
      0x7B4B33259D3653169E6FC9FEB4A0515F91180B1011896F7E64CE2A9D26674463, 0xDC3C527551D21BA8BEFAEFF47CF3248B2019C8598C372402F60681BF000678FF,
    Here))))))))
  }

  function Stop30(): Stop {
    Stop(0xFFFFFFFFFFFFFFFFFFFFFFFFFFFFFFFEBAAEDCE6AF48A03BBFD26, 0x7B4B33259D3653169E6FC9FEB4A0515F91180B1011896F7E64CE2A9D26674463,
      0xDC3C527551D21BA8BEFAEFF47CF3248B2019C8598C372402F60681BF000678FF)
  }

  lemma Part30()
    ensures Leads(Walk30(), Stop29(), Stop30(), Gx(), Gy(), Prime())
  {}

  function Walk31(): Walk {
    Twice(0xB1206B720FE6033A76096668B533A8D975EA4BD5F808B41FB2E3BFD32EFB5DA5, 0x7E9F2642107E59C006B716AA86408949CBBB968DC7275309FF7DB0F05D3CEC15,
      0x7A8DD8AEC3989614166103BE07A51823B10ACEBECDD95CDC8BE183B572D914B6, -0x1E6436A94643F9F4D7DA950EFCED025023EDDE04DEE70016B97EB76061E46E8C,
      0xA737E485F1095D46ABBD4D3FAB5E41660ED9B539D7D26EB3983A476D1178CE29, 0x8AD4CA56AF3EEB58F01DE6499D29DC213BF50E40DCEFBBA9086B3551DCB2E817,
    Twice(0xD4F8F728DEFB009B19611939BA09A25DF988E2C20CD72404A3C9241682D9B1CD, -0x60AF7195AD14619F18D40B24B8F4458C59E267CAB3FBD02520A49CC4B147D0B3,
      0xB12D4B7B7F1FA420DA5DC480F92638BE49A671D4ECE30FC7ACB2153A6AB1E6FD, -0x2D7326BE18CBC6C31548BD7FA951EFF3276F9792B5321EDD52CEF3688E54CD87,
      0xDDD9BA85D721108401F0FBB240A559E91A64EB7795D2B0518A1865032B080D64, 0x8CF73AD467C73ED004B1CE5DEB707A17924B1DE5E8A3C01D45616EA6E0384A73,
    Twice(0xEF067CF45AF2B98DF43EA206403AFB8C285D5F02AEBBCADDFA1986F723726CD3, -0x139882A9E848BBA452EC6E16A3FB7A4346C267A1C191FA161CB2C3BA4FAE7F0C2,
      0xDF2D1D7A5A431B3063773148AF3058A7473D6657CA55A392AA14572DE1D3CE9C, 0xB35E9D15A6CC455F94F9A5D96515D9E270E3505F0DC16F596C47078180A18D51,
      0x1DBE270F8382F57D58FA8EF739DC00F2215FECDE9B7B2A2A781D1AC14F761C7D, 0xB02AD2AAC6B481269CE8CE5D3E1F803DDB3B2DA77D72F8E8B895D49D6F1D0A13,
    Minus(0x26E127B79AFFEDCDEEEC2B52D0B2828C3B05DB91131849240FA85D21DCB4D902, 0xDF8F3E85213CBE5EA2D7B79DDE5110EE126A6978F23E22613B5918C314892CE,
      0x5E79DD158EBE562191FBD2FA8FE152F9E86181EA403E01B13999B58250679EB, 0x40941C074814DBE7A0564E991DAC2C354E63CD75A49D7FBCD0852E558C86ADA,
      0x32ABAE154A169BE2822476ED1E837893E8E28BDC64B39DB396374753A0D79CA, 0x621C0A80D91CDDA24502218B9CC6EC068446430BC38482275055B7B97C59C04D,
    Twice(0x8E3FA477123B584F2D50B6F126ADA57E27A8F2868CA91F8FD9CE85A1F920CF12, 0x6CE9CCF9E6BFE1DE1E4BBA3B96EA4E61687323DD0C229286C5B9840E773121D8,
      0x4F0AAA46747D95EB4ADBCA86125D7F6293C4DCCEDFCC9F8A73CBEE870D1E3360, -0x52B8421A58738D1AA7360BEE77B518AEB3421735BFC45A4C9591F6CB77A72EF7,
      0x9808ECF7BEEC7107C9F854E501B955CF1932E8AA4C7C4F81B1769B880C253B10, 0x1E1BAFF0353575305F5C273F355C74432530749D1388288BF2A1FA9CA4E8D220,
    Twice(0x3B49C33D536BDB2E909079C762D2053F34997113063CF72ADCAB7D7DDEC9FAA9, -0x100EDB051EE4D2D7F9C4C8CF8856BC51EC484E1E6D900A6B90C0316C985A52740,
      0xDBB153F3253C651A3AF8C857FF62F4FB90A101DD5EB8E733037172174C55158, -0x177A3FEE1E26516302AE122CC6F2334C858A4C97C9A24B822C746CF9993E895E,
      0xFD688F03CDEA65A132BFFAEF52E13ED3464AD04781006D48FBC822193B917E49, 0x8B67CAF6EBAE54AA22940DBE7B2665B0F7453385432E945AA7AF332A458DE381,
    Plus(0x1F2EC02E6466B6D8C72F9D7F5D8ECD7033AB03D07BAAAA43CE78C20480D033E3, -0x1009A652D825F49C0946F45F32F4861200532B87F03C4BCB1D1C2658D38B72F6,
      0x3CC5B14DD42943484B4660006BEBAF4462C2C2C7808B3014F40777ACC84DD7F, 0x19340CC1E3BF4444424EA7408097094CA37F75D55D509AF407847963EAC5768F,
      0x2E7F27E454D8593C574E5CB89B99255A11B15F7B6D98582BBA98BE008FEBF717, 0xEF2180A04227160A5E81DC2FA77A744368864E39F866F8C295F870A8BC616B94,
    Twice(0x62C33E0B9150E0608B29448FB56BCEF22513931A622E8631B498AE54B22262A2, 0x9F2C92F281B0895EE9B7E545E27F3ACE6AB46654A73C6F1A4E9B1047BDD09E73,
      0x261A10686FEAE7E8B9BE5CCACB3B3E4F00B2CF66700EC5200D96CAC9EDAED604, -0x23E6D7F347213A58D059681629862C5E7155B0DF7E39BDC4829878F78BD26B50,
      0x8B8E7D5A90A242503D8B4693FF8770EF129070011B32E57F65F20EBE996F459A, 0xDBB3730BD44D388E6B0820A4D5FBF257CC0DE8318600C5B3E2CC4660D9073336,
    Here))))))))
  }

  function Stop31(): Stop {
    Stop(0x3FFFFFFFFFFFFFFFFFFFFFFFFFFFFFFFAEABB739ABD2280EEFF497A, 0x8B8E7D5A90A242503D8B4693FF8770EF129070011B32E57F65F20EBE996F459A,
      0xDBB3730BD44D388E6B0820A4D5FBF257CC0DE8318600C5B3E2CC4660D9073336)
  }

  lemma Part31()
    ensures Leads(Walk31(), Stop30(), Stop31(), Gx(), Gy(), Prime())
  {}

  function Walk32(): Walk {
    Twice(0x98706A34365FC35F0BF58006B8086053E00BACA29DFF996227401C8CCD9179D7, 0x2169E99DFB3766802E0239804BBC4344E1E88F98AF765255CA9E884DFFA7E3B8,
      0x5AC5AF7B1A509379419C9D9AD8DCEE93530CE377F40EBE48872D4E16CC20F4F5, 0x41C63426D923B297BE645FDBDE311E0658AC1F91EC636745593A65A42A76CBD5,
      0x1D191A0947F67B870C31C0F20D3DA6B66D4FD0B5A49A32C5A07A776E6C734262, 0x3B2A3F3972F2D8E46EEA82D5880997BFF2CB652E3FAF208E96189284C63CE0B7,
    Twice(0x754E3F3B8B39783AE1D98F7BED4A33A9CB83A2DCF3DD96AF1ED15030279B19E9, 0x2C4CB1AEC2BA87180F1F5534683AA8828DF301406B99602CECCF3DAF0ED2880E,
      0x35C09DB70529BB4AD7B4597E9943A45422575262B0AF898C494C24ED3F796F98, -0x46E9BB2CB1FA258E9FB49E33FF6951071C6AD1B1B380F53141BBAB15F65F812D,
      0xB7DA96BF13C179BC9A9C90BDB7B6C1EF9D555E6799BF4F76750B6567C651B465, 0x28AC804031A2B0068154809EF06A8F48F6ED63F5AF4C9CD018B66E25F5DE12D1,
    Plus(0xE215962CD9F44461723913864B5FBE04968CF55C243B95B2DCA2B4B3749E9513, -0x36DA1F57F21D1219E32BC5721E168C9825E4E3E357B69A932FFC5CB257D0EE42,
      0xC7AA1EF92C47A2152B533C301747E9605A874AEB2AF9E7D973CEEFD29E55726B, 0x513CCAC0B897B683C0CC69C56825E1C6A14DE4D01BE081158017DC981B32CD73,
      0x5BDDF26C481CDB618DD0CBCB17DDED3D6FBF941027EDBB8A68AC185DF912FDC7, 0xAECA255138C1852DAB41A7235DD6403AA725D7EA3D3B8AEE30C08BEAE07984CC,
    Twice(0x10E18FD20EBDE51BC24C0D0D7726BF8172768691AF8284E703A862E3CB39E08B, -0x4BD957EBE2086CE22B3A19783BBF1B9706CE89524A1E405CF951FB95E0394265,
      0x11CF8B861E1FF44896F41D77D32A198F32531F682842B043C654E7096CC661F, -0xA2D41D64F6A6063AAF9814A340BD9017F0F075FE776438861674871C30751BF,
      0xF632613E177B86F6ADBF655C303024E24DDCDBA7D811DEE496680AC6C4C54C3A, 0x16E57331B412A1D4424C5087AE0AF14ED1A3756C61C4347C3F6D0228898748D4,
    Twice(0xCF8A0D4EDD568904AECB3DA1B921A0295A8DAE93D6F44AE1794DEA81CE43BE88, -0x2A12ED45C670EE98A67C10F6A17269F4A67D09F39962A33156300974802C65594,
      0xA8408BF7E3A9ADA7B5BD9F37922250BFDFBEECEE4CAABAA8D0A83428BD972422, 0x18E13FE9C7B7A4F4D51952C9E71B0C31E5C2E1B6DFA4A9947DEA6099962C7A06,
      0xD781E6945D1F6ECF932F554B400F165C9F83637BA6760D766F4DDBB02D44758E, 0x3E070BF29A075E04BEE992FF941FA43469F42EBA57F1EA5C91CAA29849001B72,
    Minus(0xB943066B51606D8C7A85933D423ED4B73EF8D41330052D28600934BF15459293, -0x43DAD413DDD96423E489AF2B2A389492CB75A7F2587330F473DB46BFA1C6B369,
      0x8611F0D377F32B9C0639838B8824C96BB1693E13360451E8D1B5AD13FFFF1017, 0x45A7AB25217ED99AFB33C07FDE2B37792F11596B7310839D3A59DC0E623C6815,
      0x77419938FE9D4D183C6AE247D7767C8255558F79293368541E8F28AE2D59DB0A, 0x8C27C4622729DE14AAF233866EADB3A459C798D14AD351DE9092D7DFD8F31E7F,
    Twice(0x66B7745DE248B97277A5615FF0BB462CF6E3C3E46FF057F7CCE290D68EC3315A, -0x36319702A3E94DF54FFB8BEA06F628B7C0F2A174B196FFB9C7A4EF5E2EB94020,
      0x2936B4326370AF4071E9CDB96B610A98C1A4D623B0BFB109B60BBD931BD06B65, -0x1ABC3C3A7C2C72B5CAABD32443A2BDCDF321EBED3A8F6C6C2838B448E657ED7D,
      0xB9E371AEE5CDC7090EA3329BD143A940D45CF9CFAC79365FC9E17A81DC55BA05, 0x2DAFF17326A770DA5F89BF10782385D7E0275A53616D417C7B35522644101836,
    Twice(0x68723255CB589F934BE2B1545A295F0260EEA2B5DE3A4A9E94F804EBD5EB2AC4, -0x16FA7D64CD0AE03AA03E8D7DC3A3E943C7CF22733BE3D4F7654D70412A6169A55,
      0x2A9CFBD69386BCC5158CF3311D469D601B8EE2D14C0EBA8F570F6B7D171AD06B, 0x1C145085317E07B9BD0E02610CE5204877F4D96870DE22F41915A8C5E7143EC9,
      0x7510B3CB6E7DCFF96E4CCB661B959A00524DDE58CE83AEC00AC8E4D627A6DA61, 0xEE3BAE36ECB330BFFBE41537B2FAEE168C6BE58F1DBB5DFBCFC3032B6653A673,
    Here))))))))
  }

  function Stop32(): Stop {
    Stop(0xFFFFFFFFFFFFFFFFFFFFFFFFFFFFFFFEBAAEDCE6AF48A03BBFD25E8C, 0x7510B3CB6E7DCFF96E4CCB661B959A00524DDE58CE83AEC00AC8E4D627A6DA61,
      0xEE3BAE36ECB330BFFBE41537B2FAEE168C6BE58F1DBB5DFBCFC3032B6653A673)
  }

  lemma Part32()
    ensures Leads(Walk32(), Stop31(), Stop32(), Gx(), Gy(), Prime())
  {}

  function Walk33(): Walk {
    Plus(0x466F29056888918E158F06A3E32528123E32443C985D64841F467CD3E63B38ED, 0x14986ED7EE1B0F7E563B2A5154A738229A35E932F78E349A5989D9DEC040D3A,
      0x1360FAB38E6E11A0EBA55B3C754B6DEFA8D029B3A0C1465382168F3FACCB8F3A, -0x21E256EC3124350B4C5863FA8181B862610BF55DB645C94629BB97E1105F37B1,
      0xF0386E2C09560257676319499E71C40DA23F2F6857A22F5CFB98C1B65C2535CA, 0x98A3BBA3793B916CF9A8C21984C84B5C17C388162653CB10ED36C95D7A1C36D7,
    Twice(0x805EFB2463FB1D9717AD604768050ED07EC1782489EE3DB07C023D3EBE49C5BE, -0x20B2891AB200BA67DC22F4C8075606D0AC16FF7F76491365FB983AE9F0C406978,
      0x405F1E61C914EB3B84558DBCA608A792CB59D352106303CF1E2042DEBE0F73BC, 0x3F936C68C6CD67295F51F753859D9B71774E884134C7A8F752CCBFE167331989,
      0x716FA98C9DDE0CC478852CF75622139994FCEDBE9BAB459DC85F0F3307C83DEC, 0x19109C30EE1955588C9E6DDEDE516D3D8B36FA5D3BE55F4A51F62507F9F409C6,
    Twice(0x6457233262F02F78F62A941998CF2F8F0CAFC6DC68529823BA96DB33339633B5, -0x832542F306F5E65EFF1B4B0D7F0774BC51A8CE361D8FF7B6912D4E97F688BB8C,
      0x275431284E61B54F3D92F8E61DFC60870D12E2E287BCCAD9FEDB71AC68C31331, 0xC67FCA21D773599F952863211E4851D48FC7EEB4D04D0B805FE22DB13F59488,
      0x51C8B782DFDA67C97699FFB78C96769CA6B50FE77A1B7F8CAC53409F81796022, 0xEDD1A8DD9D9C2C736BF110701E49E5438C261021C4772AE32F634D4A1095DF14,
    Minus(0xDCC2DAEC8346AF1CFECA154564757790BF9CE15A39F2CC4866AD395471701517, 0x22758CBB63637576D2AC1C959FEB9FF7CC2E1DCEA0A2E13E2CE4FA97D29C8179,
      0xBE5F7C970B501E31EDBF28F95B0E5E7CF291572E7A73CA24E5E003CAD833D42E, -0x8F1E7A0A19EF9C349011F79712E1BFD0C22724E8E6DC7FF24AAA4FFB2B681763,
      0xF7BF95CD74247863E1E94CEAD464864357E16C6BF35EAFCF8028C41F493813E5, 0xCF2B7C5ED5F782E85FC63FEFE2E7410CBE3711C98B1EF7DE08CE1A20F7F7BA94,
    Twice(0x69B6343CD46E3261CBFBA536047EAC826A6E5B069D0511ED854203A27DC2D6AD, -0x2243134F341F6FCDD56EE6A56A2410A3E72EAB0D50B36A9EC4B3425FF30EB43ED,
      0x2BA6F888376936C4E4C882EC61601FB3CBD6BA99C45313FD3C0E3DC42BCA26E0, 0x566C347B3FCA368F1C64D56EB9EDCDA1CA894C384821A9BDCB5CEB5B2414D3BE,
      0x2675D6C93721EA437088C933EEFFDE4E66294B619CE91F85CA6DF32F9047E5FF, 0xB7966EF8909331EFF1091208954C052BDA348B7B48D110B3C196B102927DA5F8,
    Twice(0x1D3FE586613E4A9815C3CCDFFEFEDF1F536FDFC332940CCC5EE0DB4890EF4566, 0x189E245D811841F36C95C4353643810025BFB040467319A314D6C917D30A1BF3,
      0x35789F337F5AA128F6384A0236DABB9E0DD312654123713FC1ACBB2F9199CEF, -0x46205B83730F89002D18F91140E0C33F7C03916946656E5662533B1794C22B6,
      0x4CD2114F2E8603244AB075376D2D00DF0062DC86E2D780B81A62B7ADF17444C5, 0xAC847C3834DB991DC3D7DAC3702091AE1184C2689CE0FC68A932D1FFF9DEC08E,
    Plus(0xE913BD3CC40444A7A62BD51A89B61DC8310E47F94C8F56737A7166AF88BCF547, 0x28E69047F74BF6AC50FFA5F7881A1B265A257A119D0A299AE88038F585823495,
      0xD434EFFE3FB7A57622D4B7917BECD4C71851025C290A5A2B18427755D84F39AC, 0x3A41F26880B20346122F8E2360D7BB2EDF8876460EB5146893A447D42350C9DC,
      0xCD559700B304F588F65DDEECD3CAB1F2357770AC27C27F0FD26AA681937B6C0, 0xBF59D2A1AFE067DBDCF248E6F38D5F4A7753077D0D06B7062CAAA1DADD5CC71,
    Twice(0xF839838E5EA18C0C3EFC4D8A88787AF906A6ABCA84884BCF498E6353B96E4AE4, 0x1543299ADEFC5F87A9907D25D014E4E7F4248C7C82237F6CCA1D36FFD6B0CD38,
      0xF0AF7BCFB05A274E8B03D16D79A1E90923B94674CFEB44203D4DB955A4D628AE, -0x619B31BD2D0295B55C586085CD4103F9CACB9C1D977868CA00DBE2C8CB9A87E5,
      0x717F3CB8F9A9480973ABD9D07B11A6AF00E5F7F782DF9713CEDAA351DCBA6D9E, 0xA8C848D088ACFE8A3B55637DA8E7D077F90D13E7C95FD67430386EAB5EBE88E2,
    Here))))))))
  }

  function Stop33(): Stop {
    Stop(0x1FFFFFFFFFFFFFFFFFFFFFFFFFFFFFFFD755DB9CD5E9140777FA4BD19A, 0x717F3CB8F9A9480973ABD9D07B11A6AF00E5F7F782DF9713CEDAA351DCBA6D9E,
      0xA8C848D088ACFE8A3B55637DA8E7D077F90D13E7C95FD67430386EAB5EBE88E2)
  }

  lemma Part33()
    ensures Leads(Walk33(), Stop32(), Stop33(), Gx(), Gy(), Prime())
  {}

  function Walk34(): Walk {
    Twice(0x2D5C87588D26F9C1CABB2AD6143C9145CA8A25067D0D0A1D1A941AC54F1E9EA8, -0x5B244C842876145E9336B20441B2643D8EC5D88A3CFAC8D9EEA2A23838137FD4,
      0x809A906B0D3AB52189991B1675BFEF4B0294C83A243F7B79403F661B3B6A8F7, -0x11CBF2D50FF4C2F53601589F78D5B4879C43907F8E8EBA36E84BE3704829FF5,
      0x77C639032F4393EDCDBE84E3E4AD619EAC36E0145D109DACA12EE5576459C9AB, 0x89FB17E7A23BCC1F51711FEF97BB5D9566535600B54DEF4772A109FC42D29291,
    Twice(0xC9633D6252EA9DF0EDA9DF6C2913CEAD0AC51D4CD58E74F5DA5E89EA5D228B0E, 0x30F99E72463CC4991CEDCDA0E886B4B18B93B35B870ED6BED846EE13CAD24C9F,
      0x9E6CFCDCEEF88EC1E34D742706D62E2F0BA5E64883642D5124734E5B3A2B2C97, 0x18DE2CC9B4E1089689860BD83ED5B90E61863C8DDCFD6D63C72BA43B372B7A5C,
      0x5829AACACFB75D57FEDC9919AB2A302D39DA56B7B655C6E96800BB5A9D51CDB5, 0x512A90C5FC0C2627AD91F8C657529CDA4ACF8D2DA5CF6E57AEC20CB55705BFFF,
    Twice(0xE271AB4EBD11FFF0EC68A819B151C9AD16B2402B2FAE6C2220FDD66672BD4063, 0x3481373769E730CF8898C8DF932B9E673D5F283B3BAB852AA8310DA225A70CE1,
      0xC84CE4EFB3F8FA9722A0E5035F0F7CA5D8D0B541047AA2B4334CE20E89FB72B4, 0x3E8C4F8C5E430F50E1AEAFC7BCA6A33FA9F98526C600F66F568B06DBA5E972A9,
      0x117364D1A188812339342D6FAAF9B9D8C4B41FE1FE92733D8FF4A19FAC5CCBD3, 0x90E186732CEBA6B53D27529891EE2E96BB2BAD9AD152D94FEB5ED854FFB1160,
    Twice(0xD36996AE84FDC0707B26792CDFAB4100A637FFA1177D4A6E9B004CE2E8E408EE, 0xB631E3C4513F26570E3DC79010D1CD3CB6E9F7CC6E4509605B5762BA10D134B,
      0xAE9739F0A3145E33B2D28481CBCD17E69D87D183E236A2CA6E834F025322CBBC, -0x236C7D2A1472FCFF35F090F64CB1750EBB6332B5BAAE7D447DB816D871EB3BCD,
      0x3C58748CAE51B1CF8CCAD71AF45F8D62DD0561BF168A99D696253FE33751AE1A, 0xF091584B70288F392823A9A6B25C2C8D04C4868C2221A19AF737E1A8374D1F41,
    Twice(0x82F4035A2F943BA8D23B2FD98A9FA96B84620FFD6FB6AC5D80D2D89C955D0442, 0xCB717972FEED02A6DEF0E56581DB145F04ADBEDC59E1D33C2333AB3D4C0565E8,
      0x42FCBBFDFC487C0C25CC88CA628336DE7474BC4C291E1ACC486445DF97BE444F, -0x29D834CD4A4AF0125EAA9217A19F67C9F4D495912B418D7DEEE1F8DDC96C67E3,
      0x8E25B7AE51EB379CEA6E4DB5E69B4D2E48BA771C81E3CC77061C680B9A85764F, 0x756D0A9F3B40D862186E88FE07CD243B71E0EAEAF657297EE03E0E6E1B3EF5C2,
    Plus(0x2359FFE39A24516F73E543D2E3166BB59AB008563C691EA500FCE17AC2636F20, -0x2D14C69C043C987F5A26390D918EC4B869C073C23A80D96869DC2B1ABE8DB0A,
      0x4E1BB9C282E52F42CA371A0311E956187A363A42D576F238FD199D705C97429, 0x4B5C4488DFCCE19F857EC84732D3B691525EF2A3673B6BF2B9FD62F0B050D2F,
      0x6C0A19C58E46EE90F228C3A2D35F8CA9B2F7637FA58F42D1EF5DADEB07538692, 0xCB23B74EBC68391202A2890C57894D0B8B71AAE497921F71E404ED3DF050453D,
    Twice(0xA6C01E692657ECD5EC1E19F348128FA4F0C3B5B3A50E715E67EDAAA8C56696D4, 0x7FD9A5222F554E6E0B6FEDCE783D9973111D91A8390A9B31EE085C04A0FE9184,
      0x6C9DB79DFF105B35C479DA2383C506DAF903314E4C80E48CE4BFED8B057F4F05, -0xA0B5976E0366FF781282C5E650C32005C079FF9D3A4245AC3D05EEC75CEA721,
      0x7B75B56ADF4D639775F3079F5661F41627C741AC1E52340DF2F4163DBE02A481, 0x7E9126C28AA4D24A9FCC56D84EC57FFCF82E570411531B5FAAA6502B93B11E6,
    Twice(0xD55CAEF44EF25AAED3132574AA0FE85D1F4C209A1BAAFA91991CE5CB60BC5173, -0xA56F645EECDE8EBE2DA0E8B26F2F51D07AA3741AD760D36741BBB589C12968D1,
      0xB1D35CB0C2890D902280AAF98D88D07EC1CD700A578359585295A5D1B5E89A91, -0xABFC38016EB818C67C5D0B776C4EC10EAA4E6A2BE39BBBDF42428B2725323E4,
      0x885B6176B50D0F76D0A4A284B76D5A4CADD9766211C1D73FBD34F56CBB829408, 0x7E47A28FC693D4787973E609811D05A67EB8584AE47D855196342EEE1512A451,
    Here))))))))
  }

  function Stop34(): Stop {
    Stop(0xFFFFFFFFFFFFFFFFFFFFFFFFFFFFFFFEBAAEDCE6AF48A03BBFD25E8CD04, 0x885B6176B50D0F76D0A4A284B76D5A4CADD9766211C1D73FBD34F56CBB829408,
      0x7E47A28FC693D4787973E609811D05A67EB8584AE47D855196342EEE1512A451)
  }

  lemma Part34()
    ensures Leads(Walk34(), Stop33(), Stop34(), Gx(), Gy(), Prime())
  {}

  function Walk35(): Walk {
    Twice(0xB34E522BC62416885F2E04725659C52D4CA4166EE58E1AB9C9D8154F3D9997EB, -0x28FE36787C9A6D534745E72F8784CA0DE758048C4AD0CB22DF013AA472EC4616,
      0x7D969EDF642347EBB81F20FD5A4E92FF500823D4C7E948CE0B393E1AA43FECAD, 0x446BC9CCF7D42CA8C892905C21BC4833541875713290A3D8E71C9EEFE01B63B6,
      0x26AB9C41F79C7AC2B781AE3E17BA5994045F1A2070CAF3FBA866E5174FFE29E6, 0xA0D0A5E327B5390682B7D05D758E9F6670C168306B59B0759DA80FE88EE607B,
    Minus(0x96851D01F7C52D4D4054D62374BE5022DC74134883F0FB1F914F3960FEE83A2A, 0x30D834AC9566A232C2D25D7B56652A2F7D2F8EBB5D3794C49E1F064D86BB9148,
      0x5880433575AFF61E2544338F99E10019BA8A5885BBB8E285EB0A0C3C1E0433A7, -0x1B831607E75C986B21630FE0E34BA6FF8B1A872B65E5B037E409D1E96C688CAD,
      0x5576495E6145CE8D2D6AD7E5ADB5503118FB255D39929E242CD37837F869EDBD, 0x5B667D57019F658BEB66B8AECBA4E8EBE1A1941735AD3FC5830C6F60E32BE802,
    Twice(0x5061F9B099A4CEAC1276439800176691901C478015955FC1F9FB263ABEC3E757, -0x1C3145D4567A55998D16A9ECB93CB98E1EE2CF05B53E3C927C4261E5089BADF1,
      0x193D618D8B6474C662CD3984CCBBB8B5C9F977BA59CA04AB4FD0AA797A39A48C, -0x2EA2403E1233D87C5B113F4FE7EBFC04E49E7022BC0FE37E0B40F889CBB77DB6,
      0xE9FACD20F18ABDB7E48BA143BB54D67D4CFF3A0C67034D76C6215672E8C13E63, 0x2F19E144F947F0D414C92D01F2C0D1C04167605563ADD1C569810E268BA921FE,
    Twice(0x486C0F1742399BEBC1B0E7CF3C2D9BC6DA16D8F8C8136944E4E68D607FC7FB73, -0x266E92B374B565F669A40E122952FDE2D652DA80B9211C112E2A14D5A35CB9D09,
      0x147CF619D1C4042FE3A056140F7B2C5CEE433A5C84F2BAEB78A30A15C0CB7F3B, 0x22D6127B7FEC52BD2B5E9D06B84E986DE2C49B6BD455CA3D893C4EE102A67E94,
      0x6ED6E947C03EC66953955EAA53993296A42E70D939A0FB46A6279B4EF4E2C90E, 0x22C1F6F71445DEA5D2C8360BB4865E03889162E8E1BB68A1F751896C9BCBFD05,
    Minus(0x6603975656B3234E973953B7F7F3D63FFA1C7A5E63E3F1358AC7E27A52B927D6, 0x458630CB0EBA58A33645DEA8CDE9705C836578E43D704E25887C2C2B92D7F36,
      0x28A6DCA5B293BFBB25B88254FD8DF8731A668CA981CB608C80B62EE24339277D, -0x2A0C5ABDFBD2EC9E7B12A24F72DAAEC7F7813A3EB79F62536EA88045BAB00D7D,
      0xD85B9D81804F75B76744AB9371A216C8E0751AB93D5A5CE5FEA6EBBD32C3BA4B, 0xDC82012EF0B98F7BF317786E69826CB148812DBA5F80D789B32C417E0C7194F0,
    Twice(0x4DFEEEB6F36C1A9CA52E3ABAE72AFF21F3F5CFC1F1763A5463CD3F9419518C9B, -0x19E32CDCE2E22E76CA79CC2F5205F72B75483A8B082EDC33598B8AE48BC88FFA5,
      0x17C35978A012C1E310DD1919A566F248D710B81528925AB815656EB12583C9E8, 0x19E9AB2BA30F2C922DE2744B0639B48AE8CF2A08C50736C0B454FE2431A33B84,
      0x834E691BCC30D8800DC8C6FF0481ADB1BA197409E5EB48A54E8F492653BDFFAB, 0xEC233F67FA7C0714EF529A14CCCE39D3AB595B1EF801313B19F03A013AAC0CB4,
    Twice(0x9054207D23FDD08AD96B38A135A128FB3EF816F72A9D5F1F52BDFD118BA86B4E, 0x4036D3A2417D01ADB94A9764BDCDC2EC05C8DC9FFD5FAF72C2A95F1A8D9CE50B,
      0x515EC0321EBCAF58AEC70EB17AC516BB94ED4B5BBE88F555D6BD3FC3413131CF, -0xCB6F834BB7BC50401511AB57E16C37FF566DD8A3DA6676D0FB4F26C7FED94EF,
      0x99DBD8FE234C8516A84C21CE12A81A46187041B71F3CA6A05225B75DDC9D636D, 0x103DB3CBA4ED3DFEB36EF511E484167FA0C84610B3ABAE405A40BE34AB8C1411,
    Twice(0x9CFCB3C3101BCA8208A3879277013A90FDE33D7E52688C097ADA6A913A3E7F3B, -0x1017E4F1D0F6756E3325FBAB147D0D4CAB4D5068ACCC755D5114AB76EB3865CAB,
      0x6044F48821E3F2AD931425AFDACEE078C6BF7D53F10DAC431F464ADCF41BC0A7, -0x3DA648D54470211CFE68F21C5B3585CDE14BA6150CF5184FB946AEC956106D1,
      0xA0245D83B1457B6611D1231B98DADF9201F26C638CB03E4060F964E9807F0E16, 0xD67E2CEA73C2B7006310FA22E059EB922ACAC7D257DE4116B4B86F8DE58EBC5B,
    Here))))))))
  }

  function Stop35(): Stop {
    Stop(0x3FFFFFFFFFFFFFFFFFFFFFFFFFFFFFFFAEABB739ABD2280EEFF497A3340D8, 0xA0245D83B1457B6611D1231B98DADF9201F26C638CB03E4060F964E9807F0E16,
      0xD67E2CEA73C2B7006310FA22E059EB922ACAC7D257DE4116B4B86F8DE58EBC5B)
  }

  lemma Part35()
    ensures Leads(Walk35(), Stop34(), Stop35(), Gx(), Gy(), Prime())
  {}

  function Walk36(): Walk {
    Plus(0xFAB655DDB77E8B9989C2EFFC19E228C0C72121537EBD7EC3C6A7E4D048847D2B, -0x259AEC9955075E602511BBF886F4BAC016D90035C30E75D6B1B404FAC8A5FE29,
      0xF588A1933E710C76BC17C49C252AAE4DA57DE2E8F766B942CE2CD7C0F372E64E, -0x5248BAEE059A70A643B3868D0C7B79512FDFCAD05D61228AB7DF15ED7844572F,
      0xF4295EBBBB524F05ED096EDFB57704113BA4CA94D1B1B539CE8F30440394CF39, 0x2FEE88754A5D53596BE914326DD9D0435C5DF90E470FE8394B1D61CC0B9F0165,
    Twice(0xAFD086D090B268755BDF504137173C8CCC46493D1D4201E9916A757F7B00DC70, -0x278C675261DE3CA4F0D7676979EB9EF502711A334C8AA5272188C085437BE1FBD,
      0x78BEC22C7FBE0E206B5E67581B608778423173A7362EFD32A54C9CD0627E3783, 0x3100B7207C0B1D4063B3F590433379F9326D62A7D115B19DF0DB960A03BD8957,
      0xACCF43E70C4900E56C9414FD57F2206BD9E8FB55AB1E40DD1AF539373A58ED81, 0xDE83C3749CE258F98118FAD43CBA0853338F81BC2DC6E39BD810AE0622E70422,
    Twice(0xA5539E4C2A0CEA6C4EDE3F6173797A79CF2787F06F7E96E45E56C87A2E153893, -0x3E8E4A93F20CF84DC0C32DEA29055A3C4727303A87C1BA5DBD9CAEFBF4CCCCB9,
      0x6AC4E55E357A05208FD6C10C3CEFE4AFCE0ADD5E35C4CE068607442ACB15A5A0, 0x15C084819F5FBD2F896101E0E1D00B6F4D9DD26804C5F83F6863B3C1466691E2,
      0x8B20B1EF875B4F0EA0782FE906159DA0C62CADC18B9BC14D2A9598B5C189E107, 0xFA223D773182D041A44928656832F024747EA14D1690B5EE8497C49D262C956E,
    Twice(0x18338C0DBB8C4B2CC1C0BEAC6FE6ABA94372E897EFF057934F4F1AB15A411201, -0xB38A695A1DA93C5380C112A9DB087834B9DCA06F08F10E4C33CA4FE15C4D62F9,
      0x249B4A3AD420DDC60082FB87DE690BA5FF924E6EC8A60544F8B2F35A51E1268, -0x9033B93AF1F66ECBBE2FFE5FFDCB3CEC3626F74FE529ADBC40601103A405EA9,
      0xEA766AEDC87CA1B9ECC5C3BB0BA49B43C2EDBEDC673707FDC234F74C7E76A0DB, 0x927D17F351B6425E359B7F2E13B963E717755ACE4FEFCBD20DAE78CAEAEC7FC5,
    Twice(0xFBD1EDE4F87D76496C35E8768D3CC737302AACCE3580B0B9925BBAE37021F505, -0x16404894A70135FF0C82F5E6F653C2FF31B5AE798E4614598A901A20B74F6BFF7,
      0xF7B554A54C3583B2FBC65DAD96FD446CE9E472AB7E78658ED9A71E560285C809, 0xD562B7C550AC364048C39A2DD3DC4CC8D42BA1B323EAB08F4A16FFEBFDE03591,
      0x1188F346C1E0517F809ACC50DAA6608F04175EB95FB762606FD62573196FBABC, 0xB05A2AC6C1D2FC12F33A67302428F25D84093A864644692749363566C71D1837,
    Twice(0xE87D436BED4BFF39A438DBC5E0F2A0AB3C426665C18963A027A08BF1B5481AF2, 0x13CB595C191C391DB2851A47C9ABE9BEB65EDC52D44F20A461D571587DFB7E7F4,
      0xD323477E87412685B906C12295D21DB1484F293EB4C13FBD94DA16E8E3FD705F, -0x445B337865F23A6B6912900A08C53286599A06770DFDCC17B11FC8E30CEA495B,
      0x5CCDC614CB67789E573D7FC6092E47AF6EEDF507A4CB6097A2872654465071DB, 0x9B25AE1BFF2ADE1558886A8A9ECFA421CF301AC5C765C4BDE6BE69734402B230,
    Twice(0x6EF473B5991356AD1B67F3FAC06178CEDF101127229B3473A62EBEE5A858903E, 0x218F0A62919A29F51B3983CA3044D42A06D856F6F86629A485FF4B9CF364D1DB,
      0x3016FCDCD60513B32E49CA4D9F51DD9384F219040798B6798E171644D21589B9, -0x27C9F876DAE9C5C2B2296861A8E0379B34691B763EDDE6CBA4CB355CA45420EB,
      0xB89B4AEF0EE4749350D17606D549453085D14C129EC4917F24ADAC9713778657, 0x8021DDB2D8E02118D9598AB5D87C2E615170E583C727DA0DBF8331B2814EF6ED,
    Plus(0xC9DEC5FF3CFD2B46CA46F2E1E2462AAF8500D13EAEDFFA5622486431A4DEFC0E, -0x31922388C281092C1BA5E4A4AE609E3E36825E125EA15C98AE3820CC5F156353,
      0x9F2F94C6CD9627646BE90D73E04C129775840591BA083CCD093F699416BEE73E, 0x354612D9C583ADE0C37D0F3E9FB4F9260F958C1CEF5328AA2CBC1D1FED949F8B,
      0x750C48EA743E024ED6DB98D688AF9FEEA98D19605B8C35F41F7689FEB4947673, 0x18FDBC55B1536EC580B94E206C060F3DA0BBA66C48F82208AFC55028BEAD3906,
    Here))))))))
  }

  function Stop36(): Stop {
    Stop(0xFFFFFFFFFFFFFFFFFFFFFFFFFFFFFFFEBAAEDCE6AF48A03BBFD25E8CD03641, 0x750C48EA743E024ED6DB98D688AF9FEEA98D19605B8C35F41F7689FEB4947673,
      0x18FDBC55B1536EC580B94E206C060F3DA0BBA66C48F82208AFC55028BEAD3906)
  }

  lemma Part36()
    ensures Leads(Walk36(), Stop35(), Stop36(), Gx(), Gy(), Prime())
  {}

  function Walk37(): Walk {
    Twice(0x98878284E0DAD18C26EF85A11E64F28C050B597A75718C02F4B113BE0D7F4566, -0x82C4ECF9A134C7724310698D6416C0268BE1E550AA6E0CA67D40FEEAC4BD8D3D,
      0x5AE132B8B5B438F654079920811AFD9B33CAC5C1548F3E5CF12175A54D34F4EA, -0x24DE16B6F9E71DA33228C4B7D7D32173C40743190F6820F59B0D1242EA61C9A4,
      0xB2ECD953FFA503C43AF22FA56EBC56FB8901494C72B5B96AA3F4308287F5E8C8, 0x4D5554054D04EEF6FF7AB6A9FDBA62504329D19CF70BCD1C854E5A173C50C538,
    Twice(0x54872F7C6339D01480FD341FD5D2488DFD73172D95ED1155432E6E89D3398C0, -0x173F9915187677191D79194277F2DCC280AEB614EF63D263BD79121FCEC011B40,
      0x1BE8FE8CBF1D80666B251479FA5A4D11C13F2DF74DD8B4DB090A25FC872F5C, 0x15433C0E5077B35F2076376A7E024C997AD73F2B6CB2EEC99EC3087A1AEF020,
      0x728794205F90F54BF5D1E505B38217947322FEE226E4434451A4B91167A47C8C, 0x464F7C78B01DF1503055380621C3CB35C8F8BBF3AFC4BDF9E665E9AAC19A71E8,
    Plus(0xB652EAFE317F809EBD0D0BABB231EBA646F4BF5B1C3E02F7E018073689BE34D1, 0x5234FBDEA13944AC44E70202B850ABA9BD675E4436FFADF7BC31D876A8AD2C4,
      0x81DA00FCD0EEAF737437244C3D13DE68833954516A83D0281D38FDA5125BE976, -0x5CE40F76C7B9CEA90FCF650A75637EB64973965AF5CF2F90B1E28BD3E3BA8AE5,
      0xF4F5086C4ADF5D72F97848E135EBEA1F7C3231AD2827E12B61B38A0AB54AF9D3, 0x7C49403601263860C0B8E2C0535E9989E39B3ED60B5034CEE4F38FE3F368C72C,
    Twice(0xAEAFAE58242A90E531E26AD3754E9A553B88D37D07CAE8E35FA4185AAEB6F158, -0x2158DDF0E4EAF201D36866A9196A2CD4E3031C55EA49ED54FC2C2C4FA8578DC75,
      0x7733498FA4673EAC688129FBE8B0D1C1E4A56CB6AEE4DE10794D19DF78F4731D, 0x27750281A7811434422AA6EB01A6E60E414B6B07CB9DCFA51D232D07C646C468,
      0xBB2228D3EA32CB3C1EB160CC824A4BA8115F9A7F415D18DDCAAC8193DEFC2C47, 0x8E07363833CA066474D5432354792ED348AC64C044BA43BCC4C426BCE4CA3DDC,
    Twice(0x9B3F6216667833FF2A4BBCD12AC27AFE4A51A2D3B07EB0E78D312ECA1F7159A1, -0xEE1DB49246065EE4C583DEEF85F2D6BA63DCF8DAD8A141E84C4581C9EA952B95,
      0x5E25D0788CB1268A624AD60999CACFFFE004C46530882A98B77EEC48BBBC25B0, -0x25CDD7AA2D2B76116311866B43A130B373A0286B69F4138F623D4C7141031084,
      0xF978B7A80B10554C847EF8B259857AF1CD5060FE394894F17A5CD815F896D363, 0x43B86E54F0380B3BFCC19605F90AEE73E0B34528976E3FABEB5C7E34F8CBE5C4,
    Twice(0xF6C614511660DD458E525FBFB354AEB10FCF1E624C2F26086BA3729F78386CC0, -0x256C4EA7F239C2430100F4C3AB0100AB0A8AF6490928F26433EB10AFC2B761D15,
      0xEDE1484F460D8C4642F226602028C2EC3E99DC86C2A10C22AD34DE575B759C7D, 0xDA5558B380A70579C000F83FD5EE4DE8C2A690687A2C25EEE60D56E8707C2317,
      0x16F9A89D6DA61F39BDBD7AA1D99D6C4FE7D35C91AE777DF739678098DCDF2247, 0x398C2A7F1F5F6CD2FF426221D4BB58C75DBF1C2AC7910CA6FC185B157792AA03,
    Twice(0x2FA523C29A33F7934F4E62B53AEF395863FF174D933527DA8937C26B6A5C9C60, 0xF3C20FFC65214BED9334CF00E5A24691D7F9C08AD15D937943F8A20CF0D3B63,
      0x8DE0DA89278A5FD845B16A73A967803EB177FC87CD5CBB802D2FD32B60E13AA, -0x1AC0388B2EC8A38A61724882E8C7232A165B2D0CBA37566C8A3BF056082D2E48,
      0xA6B594B38FB3E77C6EDF78161FADE2041F4E09FD8497DB776E546C41567FEB3C, 0x71444009192228730CD8237A490FEBA2AFE3D27D7CC1136BC97E439D13330D55,
    Twice(0x60610490A84968BA2933CDF68CDFAD9B184BA2853935FD774BEF4E64377BA489, -0xF066EF23F2825B3C1099C08D68017A723FFEF14667A9F0FEF20302E2601162AA,
      0x2448E830F3EB6D2D087624F4324D34346794750E7986D408080F28C28D2B7D6A, 0x3EC34589B7FA54C94137CF83C615FCA0AE81B378DA463C2BA0A696CDFD02BF77,
      0x3B78CE563F89A0ED9414F5AA28AD0D96D6795F9C63, 0x3F3979BF72AE8202983DC989AEC7F2FF2ED91BDD69CE02FC0700CA100E59DDF3,
    Here))))))))
  }

  function Stop37(): Stop {
    Stop(0x7FFFFFFFFFFFFFFFFFFFFFFFFFFFFFFF5D576E7357A4501DDFE92F46681B20A0, 0x3B78CE563F89A0ED9414F5AA28AD0D96D6795F9C63,
      0x3F3979BF72AE8202983DC989AEC7F2FF2ED91BDD69CE02FC0700CA100E59DDF3)
  }

  lemma Part37()
    ensures Leads(Walk37(), Stop36(), Stop37(), Gx(), Gy(), Prime())
  {}

  function Walk38(): Walk {
    Twice(0x3B9E1FD3F452018F0E9C2EE69240A880EE147A50256C489C9338D92CACD255C2, 0x1D7298C92417205F0A2A693FBE29F8EC2086DD54B2D5DFAB663D6F01C334DE5F,
      0xDE244570034669A620DAB01C85900804A78E9A15F24F1F2D13289BF8EF24C3A, -0x1C5A1445607C69D1D948387B9687D926DE66B12215C644000743C395A06903AC,
      0x79BE667EF9DCBBAC55A06295CE870B07029BFCDB2DCE28D959F2815B16F81798, 0xB7C52588D95C3B9AA25B0403F1EEF75702E84BB7597AABE663B82F6F04EF2777,
    Here)
  }

  function Stop38(): Stop {
    Stop(0xFFFFFFFFFFFFFFFFFFFFFFFFFFFFFFFEBAAEDCE6AF48A03BBFD25E8CD0364140, 0x79BE667EF9DCBBAC55A06295CE870B07029BFCDB2DCE28D959F2815B16F81798,
      0xB7C52588D95C3B9AA25B0403F1EEF75702E84BB7597AABE663B82F6F04EF2777)
  }

  lemma Part38()
    ensures Leads(Walk38(), Stop37(), Stop38(), Gx(), Gy(), Prime())
  {}

  /** N * G is the point at infinity. */
  lemma OrderOfG()
    requires IsPrime(P) && Associative()
    ensures Times(N, G) == Infinity
  {
    hide Group, Multiple, Associative, Carry, Leads, FromWords;
    FirstMultiple();
    ModulusDigits();
    OrderDigits();
    GeneratorDigits();
    Part1();
    LeadsRight(Walk1(), Stop0(), Stop1(), G, P);
    Part2();
    LeadsRight(Walk2(), Stop1(), Stop2(), G, P);
    Part3();
    LeadsRight(Walk3(), Stop2(), Stop3(), G, P);
    Part4();
    LeadsRight(Walk4(), Stop3(), Stop4(), G, P);
    Part5();
    LeadsRight(Walk5(), Stop4(), Stop5(), G, P);
    Part6();
    LeadsRight(Walk6(), Stop5(), Stop6(), G, P);
    Part7();
    LeadsRight(Walk7(), Stop6(), Stop7(), G, P);
    Part8();
    LeadsRight(Walk8(), Stop7(), Stop8(), G, P);
    Part9();
    LeadsRight(Walk9(), Stop8(), Stop9(), G, P);
    Part10();
    LeadsRight(Walk10(), Stop9(), Stop10(), G, P);
    Part11();
    LeadsRight(Walk11(), Stop10(), Stop11(), G, P);
    Part12();
    LeadsRight(Walk12(), Stop11(), Stop12(), G, P);
    Part13();
    LeadsRight(Walk13(), Stop12(), Stop13(), G, P);
    Part14();
    LeadsRight(Walk14(), Stop13(), Stop14(), G, P);
    Part15();
    LeadsRight(Walk15(), Stop14(), Stop15(), G, P);
    Part16();
    LeadsRight(Walk16(), Stop15(), Stop16(), G, P);
    Part17();
    LeadsRight(Walk17(), Stop16(), Stop17(), G, P);
    Part18();
    LeadsRight(Walk18(), Stop17(), Stop18(), G, P);
    Part19();
    LeadsRight(Walk19(), Stop18(), Stop19(), G, P);
    Part20();
    LeadsRight(Walk20(), Stop19(), Stop20(), G, P);
    Part21();
    LeadsRight(Walk21(), Stop20(), Stop21(), G, P);
    Part22();
    LeadsRight(Walk22(), Stop21(), Stop22(), G, P);
    Part23();
    LeadsRight(Walk23(), Stop22(), Stop23(), G, P);
    Part24();
    LeadsRight(Walk24(), Stop23(), Stop24(), G, P);
    Part25();
    LeadsRight(Walk25(), Stop24(), Stop25(), G, P);
    Part26();
    LeadsRight(Walk26(), Stop25(), Stop26(), G, P);
    Part27();
    LeadsRight(Walk27(), Stop26(), Stop27(), G, P);
    Part28();
    LeadsRight(Walk28(), Stop27(), Stop28(), G, P);
    Part29();
    LeadsRight(Walk29(), Stop28(), Stop29(), G, P);
    Part30();
    LeadsRight(Walk30(), Stop29(), Stop30(), G, P);
    Part31();
    LeadsRight(Walk31(), Stop30(), Stop31(), G, P);
    Part32();
    LeadsRight(Walk32(), Stop31(), Stop32(), G, P);
    Part33();
    LeadsRight(Walk33(), Stop32(), Stop33(), G, P);
    Part34();
    LeadsRight(Walk34(), Stop33(), Stop34(), G, P);
    Part35();
    LeadsRight(Walk35(), Stop34(), Stop35(), G, P);
    Part36();
    LeadsRight(Walk36(), Stop35(), Stop36(), G, P);
    Part37();
    LeadsRight(Walk37(), Stop36(), Stop37(), G, P);
    Part38();
    LeadsRight(Walk38(), Stop37(), Stop38(), G, P);
    LastStep(N - 1, G, P);
  }

  lemma FirstMultiple()
    requires IsPrime(P) && Associative()
    ensures Group(G, P) && Right(Stop0(), G, P)
  {
    hide TimesMod, OnCurveMod, IsPrime, AssociativeMod, FromWords;
    Moduli();
    GeneratorDigits();
    GeneratorOnCurve();
    TimesOne(G, P);
  }
}
