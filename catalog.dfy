/** The tile catalog of src/lib.rs: the 1024-byte string `Tile::EDGES`,
    four letters per tile in side order right, top, left, bottom. The string
    is held here as 256 groups of four bytes, 16 tiles to a row, rather than
    as one 1024-element sequence: indexing a sequence literal that long at a
    symbolic position makes every proof that reads a tile colour unfold all
    of it, while a row function reached through `CatalogSearch` is unfolded
    only for the tile at hand. `Tiles.CatalogBytes` gives back the flat string. */
module Catalog {

  /** An unsigned byte. */
  newtype Byte = x: int | 0 <= x < 256

  const BYTE_A: Byte := 97  // b'a'
  const BYTE_W: Byte := 119 // b'w'

  /** One of the 256 catalog tiles. */
  newtype Tile = x: int | 0 <= x < 256

  /** The four bytes of the catalog string that describe one tile, in side
      order right, top, left, bottom. */
  datatype TileBytes = TileBytes(right: Byte, top: Byte, left: Byte, bottom: Byte)

  /** Tiles 0..15 of the catalog. */
  function CatalogRow0(col: int): TileBytes
  {
    match col
    case 0 => TileBytes(106, 97, 97, 114) // jaar
    case 1 => TileBytes(102, 97, 106, 116) // fajt
    case 2 => TileBytes(98, 97, 102, 118) // bafv
    case 3 => TileBytes(102, 97, 98, 112) // fabp
    case 4 => TileBytes(106, 97, 102, 101) // jafe
    case 5 => TileBytes(114, 97, 106, 99) // rajc
    case 6 => TileBytes(98, 97, 114, 108) // barl
    case 7 => TileBytes(106, 97, 98, 117) // jabu
    case 8 => TileBytes(102, 97, 106, 112) // fajp
    case 9 => TileBytes(110, 97, 102, 101) // nafe
    case 10 => TileBytes(106, 97, 110, 109) // janm
    case 11 => TileBytes(98, 97, 106, 112) // bajp
    case 12 => TileBytes(102, 97, 98, 101) // fabe
    case 13 => TileBytes(98, 97, 102, 105) // bafi
    case 14 => TileBytes(102, 97, 98, 115) // fabs
    case _ => TileBytes(97, 97, 102, 98) // aafb
  }

  /** Tiles 16..31 of the catalog. */
  function CatalogRow1(col: int): TileBytes
  {
    match col
    case 0 => TileBytes(117, 114, 97, 114) // urar
    case 1 => TileBytes(105, 116, 117, 111) // ituo
    case 2 => TileBytes(118, 118, 105, 115) // vvis
    case 3 => TileBytes(116, 112, 118, 117) // tpvu
    case 4 => TileBytes(119, 101, 116, 115) // wets
    case 5 => TileBytes(117, 99, 119, 103) // ucwg
    case 6 => TileBytes(119, 108, 117, 111) // wluo
    case 7 => TileBytes(105, 117, 119, 99) // iuwc
    case 8 => TileBytes(100, 112, 105, 108) // dpil
    case 9 => TileBytes(105, 101, 100, 105) // iedi
    case 10 => TileBytes(111, 109, 105, 99) // omic
    case 11 => TileBytes(99, 112, 111, 116) // cpot
    case 12 => TileBytes(108, 101, 99, 101) // lece
    case 13 => TileBytes(103, 105, 101, 111) // gieo
    case 14 => TileBytes(99, 115, 103, 99) // csgc
    case _ => TileBytes(97, 98, 99, 98) // abcb
  }

  /** Tiles 32..47 of the catalog. */
  function CatalogRow2(col: int): TileBytes
  {
    match col
    case 0 => TileBytes(105, 114, 97, 102) // iraf
    case 1 => TileBytes(111, 111, 105, 116) // ooit
    case 2 => TileBytes(100, 115, 111, 100) // dsod
    case 3 => TileBytes(100, 117, 100, 109) // dudm
    case 4 => TileBytes(103, 115, 100, 103) // gsdg
    case 5 => TileBytes(100, 108, 103, 100) // dlgd
    case 6 => TileBytes(112, 111, 100, 100) // podd
    case 7 => TileBytes(108, 99, 112, 117) // lcpu
    case 8 => TileBytes(109, 108, 108, 119) // mllw
    case 9 => TileBytes(109, 105, 109, 101) // mime
    case 10 => TileBytes(99, 105, 119, 115) // ciws
    case 11 => TileBytes(116, 116, 99, 112) // ttcp
    case 12 => TileBytes(104, 101, 116, 117) // hetu
    case 13 => TileBytes(116, 111, 104, 118) // tohv
    case 14 => TileBytes(119, 99, 116, 101) // wcte
    case _ => TileBytes(97, 98, 118, 106) // abvj
  }

  /** Tiles 48..63 of the catalog. */
  function CatalogRow3(col: int): TileBytes
  {
    match col
    case 0 => TileBytes(116, 102, 97, 114) // tfar
    case 1 => TileBytes(117, 116, 116, 116) // uttt
    case 2 => TileBytes(99, 100, 117, 104) // cduh
    case 3 => TileBytes(115, 109, 99, 116) // smct
    case 4 => TileBytes(118, 103, 115, 118) // vgsv
    case 5 => TileBytes(119, 100, 118, 118) // wdvv
    case 6 => TileBytes(119, 100, 119, 118) // wdwv
    case 7 => TileBytes(104, 117, 119, 101) // huwe
    case 8 => TileBytes(108, 119, 104, 117) // lwhu
    case 9 => TileBytes(100, 101, 108, 118) // delv
    case 10 => TileBytes(109, 115, 100, 115) // msds
    case 11 => TileBytes(116, 112, 109, 101) // tpme
    case 12 => TileBytes(112, 117, 116, 119) // putw
    case 13 => TileBytes(118, 118, 99, 100) // vvcd
    case 14 => TileBytes(112, 101, 109, 101) // peme
    case _ => TileBytes(97, 106, 112, 114) // ajpr
  }

  /** Tiles 64..79 of the catalog. */
  function CatalogRow4(col: int): TileBytes
  {
    match col
    case 0 => TileBytes(105, 114, 97, 106) // iraj
    case 1 => TileBytes(100, 116, 105, 111) // dtio
    case 2 => TileBytes(108, 104, 100, 116) // lhdt
    case 3 => TileBytes(109, 116, 108, 111) // mtlo
    case 4 => TileBytes(119, 118, 109, 111) // wvmo
    case 5 => TileBytes(99, 118, 119, 119) // cvww
    case 6 => TileBytes(99, 118, 101, 105) // cvei
    case 7 => TileBytes(115, 101, 99, 115) // secs
    case 8 => TileBytes(104, 117, 115, 115) // huss
    case 9 => TileBytes(116, 118, 104, 105) // tvhi
    case 10 => TileBytes(104, 115, 116, 108) // hstl
    case 11 => TileBytes(116, 101, 104, 101) // tehe
    case 12 => TileBytes(100, 119, 116, 108) // dwtl
    case 13 => TileBytes(104, 100, 100, 99) // hddc
    case 14 => TileBytes(105, 101, 104, 103) // iehg
    case _ => TileBytes(97, 114, 99, 114) // arcr
  }

  /** Tiles 80..95 of the catalog. */
  function CatalogRow5(col: int): TileBytes
  {
    match col
    case 0 => TileBytes(104, 106, 97, 106) // hjaj
    case 1 => TileBytes(101, 111, 104, 108) // eohl
    case 2 => TileBytes(105, 116, 101, 108) // itel
    case 3 => TileBytes(108, 111, 105, 105) // loii
    case 4 => TileBytes(115, 111, 108, 99) // solc
    case 5 => TileBytes(99, 119, 115, 115) // cwss
    case 6 => TileBytes(116, 105, 99, 112) // ticp
    case 7 => TileBytes(99, 115, 116, 112) // cstp
    case 8 => TileBytes(99, 115, 99, 105) // csci
    case 9 => TileBytes(108, 105, 99, 109) // licm
    case 10 => TileBytes(115, 108, 108, 104) // sllh
    case 11 => TileBytes(104, 101, 115, 104) // hesh
    case 12 => TileBytes(103, 108, 104, 118) // glhv
    case 13 => TileBytes(119, 99, 103, 118) // wcgv
    case 14 => TileBytes(112, 112, 119, 118) // ppwv
    case _ => TileBytes(97, 114, 112, 102) // arpf
  }

  /** Tiles 96..111 of the catalog. */
  function CatalogRow6(col: int): TileBytes
  {
    match col
    case 0 => TileBytes(109, 106, 97, 98) // mjab
    case 1 => TileBytes(104, 108, 109, 109) // hlmm
    case 2 => TileBytes(108, 108, 104, 117) // llhu
    case 3 => TileBytes(109, 105, 108, 117) // milu
    case 4 => TileBytes(109, 99, 109, 105) // mcmi
    case 5 => TileBytes(103, 115, 109, 103) // gsmg
    case 6 => TileBytes(112, 112, 103, 112) // ppgp
    case 7 => TileBytes(109, 112, 112, 104) // mpph
    case 8 => TileBytes(111, 105, 109, 118) // oimv
    case 9 => TileBytes(119, 109, 111, 112) // wmop
    case 10 => TileBytes(115, 104, 119, 101) // shwe
    case 11 => TileBytes(119, 104, 115, 113) // whsq
    case 12 => TileBytes(119, 118, 119, 105) // wvwi
    case 13 => TileBytes(111, 118, 119, 118) // ovwv
    case 14 => TileBytes(113, 118, 111, 100) // qvod
    case _ => TileBytes(97, 102, 113, 102) // afqf
  }

  /** Tiles 112..127 of the catalog. */
  function CatalogRow7(col: int): TileBytes
  {
    match col
    case 0 => TileBytes(103, 98, 97, 98) // gbab
    case 1 => TileBytes(104, 109, 103, 116) // hmgt
    case 2 => TileBytes(113, 117, 104, 103) // quhg
    case 3 => TileBytes(99, 117, 113, 109) // cuqm
    case 4 => TileBytes(116, 105, 99, 101) // tice
    case 5 => TileBytes(108, 103, 116, 115) // lgts
    case 6 => TileBytes(101, 112, 108, 99) // eplc
    case 7 => TileBytes(109, 104, 101, 115) // mhes
    case 8 => TileBytes(108, 118, 109, 111) // lvmo
    case 9 => TileBytes(103, 112, 108, 116) // gplt
    case 10 => TileBytes(104, 101, 103, 118) // hegv
    case 11 => TileBytes(116, 113, 104, 111) // tqho
    case 12 => TileBytes(101, 105, 116, 118) // eitv
    case 13 => TileBytes(112, 118, 101, 109) // pvem
    case 14 => TileBytes(117, 100, 112, 116) // udpt
    case _ => TileBytes(97, 102, 117, 102) // afuf
  }

  /** Tiles 128..143 of the catalog. */
  function CatalogRow8(col: int): TileBytes
  {
    match col
    case 0 => TileBytes(104, 98, 97, 102) // hbaf
    case 1 => TileBytes(112, 116, 104, 108) // pthl
    case 2 => TileBytes(105, 103, 112, 105) // igpi
    case 3 => TileBytes(113, 109, 105, 103) // qmig
    case 4 => TileBytes(109, 101, 113, 100) // meqd
    case 5 => TileBytes(100, 115, 109, 112) // dsmp
    case 6 => TileBytes(108, 99, 100, 105) // lcdi
    case 7 => TileBytes(103, 115, 108, 103) // gslg
    case 8 => TileBytes(100, 111, 103, 101) // doge
    case 9 => TileBytes(111, 116, 100, 104) // otdh
    case 10 => TileBytes(111, 118, 111, 104) // ovoh
    case 11 => TileBytes(99, 111, 111, 115) // coos
    case 12 => TileBytes(99, 118, 99, 117) // cvcu
    case 13 => TileBytes(103, 109, 99, 111) // gmco
    case 14 => TileBytes(105, 116, 103, 107) // itgk
    case _ => TileBytes(97, 102, 105, 102) // afif
  }

  /** Tiles 144..159 of the catalog. */
  function CatalogRow9(col: int): TileBytes
  {
    match col
    case 0 => TileBytes(108, 102, 97, 110) // lfan
    case 1 => TileBytes(113, 108, 108, 112) // qllp
    case 2 => TileBytes(108, 105, 113, 117) // liqu
    case 3 => TileBytes(104, 103, 108, 118) // hglv
    case 4 => TileBytes(100, 100, 104, 119) // ddhw
    case 5 => TileBytes(100, 112, 100, 113) // dpdq
    case 6 => TileBytes(107, 105, 100, 103) // kidg
    case 7 => TileBytes(101, 103, 107, 112) // egkp
    case 8 => TileBytes(119, 101, 101, 105) // weei
    case 9 => TileBytes(111, 104, 119, 100) // ohwd
    case 10 => TileBytes(99, 104, 111, 99) // choc
    case 11 => TileBytes(117, 115, 99, 103) // uscg
    case 12 => TileBytes(117, 117, 117, 111) // uuuo
    case 13 => TileBytes(101, 111, 117, 103) // eoug
    case 14 => TileBytes(119, 107, 101, 108) // wkel
    case _ => TileBytes(97, 102, 119, 114) // afwr
  }

  /** Tiles 160..175 of the catalog. */
  function CatalogRow10(col: int): TileBytes
  {
    match col
    case 0 => TileBytes(113, 110, 97, 110) // qnan
    case 1 => TileBytes(100, 112, 113, 104) // dpqh
    case 2 => TileBytes(116, 117, 100, 107) // tudk
    case 3 => TileBytes(107, 118, 116, 113) // kvtq
    case 4 => TileBytes(101, 119, 107, 100) // ewkd
    case 5 => TileBytes(115, 113, 101, 119) // sqew
    case 6 => TileBytes(112, 103, 115, 103) // pgsg
    case 7 => TileBytes(117, 112, 112, 111) // uppo
    case 8 => TileBytes(104, 105, 117, 112) // hiup
    case 9 => TileBytes(113, 100, 104, 99) // qdhc
    case 10 => TileBytes(117, 99, 113, 101) // ucqe
    case 11 => TileBytes(113, 103, 117, 107) // qguk
    case 12 => TileBytes(117, 111, 113, 115) // uoqs
    case 13 => TileBytes(112, 103, 117, 109) // pgum
    case 14 => TileBytes(115, 108, 112, 119) // slpw
    case _ => TileBytes(97, 114, 115, 114) // arsr
  }

  /** Tiles 176..191 of the catalog. */
  function CatalogRow11(col: int): TileBytes
  {
    match col
    case 0 => TileBytes(99, 110, 97, 110) // cnan
    case 1 => TileBytes(113, 104, 99, 118) // qhcv
    case 2 => TileBytes(119, 107, 113, 111) // wkqo
    case 3 => TileBytes(119, 113, 119, 117) // wqwu
    case 4 => TileBytes(109, 100, 119, 101) // mdwe
    case 5 => TileBytes(118, 119, 109, 100) // vwmd
    case 6 => TileBytes(116, 103, 118, 116) // tgvt
    case 7 => TileBytes(118, 111, 116, 109) // votm
    case 8 => TileBytes(107, 112, 118, 105) // kpvi
    case 9 => TileBytes(115, 99, 107, 108) // sckl
    case 10 => TileBytes(112, 101, 115, 107) // pesk
    case 11 => TileBytes(117, 107, 112, 117) // ukpu
    case 12 => TileBytes(113, 115, 117, 103) // qsug
    case 13 => TileBytes(115, 109, 113, 103) // smqg
    case 14 => TileBytes(115, 119, 115, 100) // swsd
    case _ => TileBytes(97, 114, 115, 106) // arsj
  }

  /** Tiles 192..207 of the catalog. */
  function CatalogRow12(col: int): TileBytes
  {
    match col
    case 0 => TileBytes(104, 110, 97, 102) // hnaf
    case 1 => TileBytes(113, 118, 104, 119) // qvhw
    case 2 => TileBytes(103, 111, 113, 107) // goqk
    case 3 => TileBytes(107, 117, 103, 118) // kugv
    case 4 => TileBytes(111, 101, 107, 119) // oekw
    case 5 => TileBytes(101, 100, 111, 115) // edos
    case 6 => TileBytes(104, 116, 101, 113) // hteq
    case 7 => TileBytes(107, 109, 104, 108) // kmhl
    case 8 => TileBytes(109, 105, 107, 119) // mikw
    case 9 => TileBytes(107, 108, 109, 108) // klml
    case 10 => TileBytes(113, 107, 107, 116) // qkkt
    case 11 => TileBytes(105, 117, 113, 107) // iuqk
    case 12 => TileBytes(115, 103, 105, 117) // sgiu
    case 13 => TileBytes(116, 103, 115, 118) // tgsv
    case 14 => TileBytes(118, 100, 116, 107) // vdtk
    case _ => TileBytes(97, 106, 118, 110) // ajvn
  }

  /** Tiles 208..223 of the catalog. */
  function CatalogRow13(col: int): TileBytes
  {
    match col
    case 0 => TileBytes(100, 102, 97, 110) // dfan
    case 1 => TileBytes(108, 119, 100, 113) // lwdq
    case 2 => TileBytes(103, 107, 108, 113) // gklq
    case 3 => TileBytes(108, 118, 103, 113) // lvgq
    case 4 => TileBytes(113, 119, 108, 107) // qwlk
    case 5 => TileBytes(117, 115, 113, 104) // usqh
    case 6 => TileBytes(118, 113, 117, 113) // vquq
    case 7 => TileBytes(105, 108, 118, 109) // ilvm
    case 8 => TileBytes(107, 119, 105, 112) // kwip
    case 9 => TileBytes(111, 108, 107, 101) // olke
    case 10 => TileBytes(107, 116, 111, 117) // ktou
    case 11 => TileBytes(100, 107, 107, 99) // dkkc
    case 12 => TileBytes(113, 117, 100, 107) // qudk
    case 13 => TileBytes(112, 118, 113, 117) // pvqu
    case 14 => TileBytes(111, 107, 112, 109) // okpm
    case _ => TileBytes(97, 110, 111, 106) // anoj
  }

  /** Tiles 224..239 of the catalog. */
  function CatalogRow14(col: int): TileBytes
  {
    match col
    case 0 => TileBytes(103, 110, 97, 98) // gnab
    case 1 => TileBytes(104, 113, 103, 113) // hqgq
    case 2 => TileBytes(109, 113, 104, 107) // mqhk
    case 3 => TileBytes(107, 113, 109, 107) // kqmk
    case 4 => TileBytes(119, 107, 107, 103) // wkkg
    case 5 => TileBytes(111, 104, 119, 113) // ohwq
    case 6 => TileBytes(118, 113, 111, 105) // vqoi
    case 7 => TileBytes(111, 109, 118, 107) // omvk
    case 8 => TileBytes(109, 112, 111, 107) // mpok
    case 9 => TileBytes(113, 101, 109, 116) // qemt
    case 10 => TileBytes(109, 117, 113, 105) // muqi
    case 11 => TileBytes(100, 99, 109, 104) // dcmh
    case 12 => TileBytes(113, 107, 100, 101) // qkde
    case 13 => TileBytes(107, 117, 113, 119) // kuqw
    case 14 => TileBytes(112, 109, 107, 107) // pmkk
    case _ => TileBytes(97, 106, 112, 106) // ajpj
  }

  /** Tiles 240..255 of the catalog. */
  function CatalogRow15(col: int): TileBytes
  {
    match col
    case 0 => TileBytes(114, 98, 97, 97) // rbaa
    case 1 => TileBytes(110, 113, 114, 97) // nqra
    case 2 => TileBytes(106, 107, 110, 97) // jkna
    case 3 => TileBytes(98, 107, 106, 97) // bkja
    case 4 => TileBytes(110, 103, 98, 97) // ngba
    case 5 => TileBytes(98, 113, 110, 97) // bqna
    case 6 => TileBytes(110, 105, 98, 97) // niba
    case 7 => TileBytes(98, 107, 110, 97) // bkna
    case 8 => TileBytes(106, 107, 98, 97) // jkba
    case 9 => TileBytes(110, 116, 106, 97) // ntja
    case 10 => TileBytes(114, 105, 110, 97) // rina
    case 11 => TileBytes(110, 104, 114, 97) // nhra
    case 12 => TileBytes(110, 101, 110, 97) // nena
    case 13 => TileBytes(114, 119, 110, 97) // rwna
    case 14 => TileBytes(114, 107, 114, 97) // rkra
    case _ => TileBytes(97, 106, 114, 97) // ajra
  }

  /** The catalog string, 16 tiles per row: bytes 4t..4t+4 describe tile
      `t == 16 * row + col`. */
  function CatalogRow(row: int, col: int): TileBytes
  {
    match row
    case 0 => CatalogRow0(col)
    case 1 => CatalogRow1(col)
    case 2 => CatalogRow2(col)
    case 3 => CatalogRow3(col)
    case 4 => CatalogRow4(col)
    case 5 => CatalogRow5(col)
    case 6 => CatalogRow6(col)
    case 7 => CatalogRow7(col)
    case 8 => CatalogRow8(col)
    case 9 => CatalogRow9(col)
    case 10 => CatalogRow10(col)
    case 11 => CatalogRow11(col)
    case 12 => CatalogRow12(col)
    case 13 => CatalogRow13(col)
    case 14 => CatalogRow14(col)
    case _ => CatalogRow15(col)
  }

  /** The catalog bytes of tile `t`, found by halving the range
      `lo..lo + size` that holds it. */
  function CatalogSearch(t: int, lo: int, size: int): TileBytes
    requires 0 <= lo && 1 <= size && lo + size <= 256 && lo <= t < lo + size
    decreases size
  {
    if size == 1 then CatalogRow(lo / 16, lo % 16)
    else
      var half := size / 2;
      if t < lo + half then CatalogSearch(t, lo, half) else CatalogSearch(t, lo + half, size - half)
  }

  /** The catalog bytes of tile `t`. */
  function CatalogTile(t: Tile): TileBytes
  {
    CatalogSearch(t as int, 0, 256)
  }

  /** `Tile::EDGES.as_bytes()[index]`. */
  function CatalogByte(index: int): Byte
    requires 0 <= index < 1024
  {
    var bytes := CatalogTile((index / 4) as Tile);
    match index % 4
    case 0 => bytes.right
    case 1 => bytes.top
    case 2 => bytes.left
    case _ => bytes.bottom
  }

  /** A catalog byte is one of the 23 colour letters 'a'..='w'. */
  predicate IsColorLetter(b: Byte)
  {
    BYTE_A <= b <= BYTE_W
  }

  predicate WellFormedTileBytes(bytes: TileBytes)
  {
    IsColorLetter(bytes.right) && IsColorLetter(bytes.top)
      && IsColorLetter(bytes.left) && IsColorLetter(bytes.bottom)
  }

  lemma CatalogRow0WellFormed(col: int)
    requires 0 <= col < 16
    ensures WellFormedTileBytes(CatalogRow0(col))
  {
  }

  lemma CatalogRow1WellFormed(col: int)
    requires 0 <= col < 16
    ensures WellFormedTileBytes(CatalogRow1(col))
  {
  }

  lemma CatalogRow2WellFormed(col: int)
    requires 0 <= col < 16
    ensures WellFormedTileBytes(CatalogRow2(col))
  {
  }

  lemma CatalogRow3WellFormed(col: int)
    requires 0 <= col < 16
    ensures WellFormedTileBytes(CatalogRow3(col))
  {
  }

  lemma CatalogRow4WellFormed(col: int)
    requires 0 <= col < 16
    ensures WellFormedTileBytes(CatalogRow4(col))
  {
  }

  lemma CatalogRow5WellFormed(col: int)
    requires 0 <= col < 16
    ensures WellFormedTileBytes(CatalogRow5(col))
  {
  }

  lemma CatalogRow6WellFormed(col: int)
    requires 0 <= col < 16
    ensures WellFormedTileBytes(CatalogRow6(col))
  {
  }

  lemma CatalogRow7WellFormed(col: int)
    requires 0 <= col < 16
    ensures WellFormedTileBytes(CatalogRow7(col))
  {
  }

  lemma CatalogRow8WellFormed(col: int)
    requires 0 <= col < 16
    ensures WellFormedTileBytes(CatalogRow8(col))
  {
  }

  lemma CatalogRow9WellFormed(col: int)
    requires 0 <= col < 16
    ensures WellFormedTileBytes(CatalogRow9(col))
  {
  }

  lemma CatalogRow10WellFormed(col: int)
    requires 0 <= col < 16
    ensures WellFormedTileBytes(CatalogRow10(col))
  {
  }

  lemma CatalogRow11WellFormed(col: int)
    requires 0 <= col < 16
    ensures WellFormedTileBytes(CatalogRow11(col))
  {
  }

  lemma CatalogRow12WellFormed(col: int)
    requires 0 <= col < 16
    ensures WellFormedTileBytes(CatalogRow12(col))
  {
  }

  lemma CatalogRow13WellFormed(col: int)
    requires 0 <= col < 16
    ensures WellFormedTileBytes(CatalogRow13(col))
  {
  }

  lemma CatalogRow14WellFormed(col: int)
    requires 0 <= col < 16
    ensures WellFormedTileBytes(CatalogRow14(col))
  {
  }

  lemma CatalogRow15WellFormed(col: int)
    requires 0 <= col < 16
    ensures WellFormedTileBytes(CatalogRow15(col))
  {
  }

  /** Every row entry of the catalog is four colour letters. */
  lemma {:induction false} CatalogRowWellFormed(t: int)
    requires 0 <= t < 256
    ensures WellFormedTileBytes(CatalogRow(t / 16, t % 16))
  {
    match t / 16
    case 0 => CatalogRow0WellFormed(t % 16);
    case 1 => CatalogRow1WellFormed(t % 16);
    case 2 => CatalogRow2WellFormed(t % 16);
    case 3 => CatalogRow3WellFormed(t % 16);
    case 4 => CatalogRow4WellFormed(t % 16);
    case 5 => CatalogRow5WellFormed(t % 16);
    case 6 => CatalogRow6WellFormed(t % 16);
    case 7 => CatalogRow7WellFormed(t % 16);
    case 8 => CatalogRow8WellFormed(t % 16);
    case 9 => CatalogRow9WellFormed(t % 16);
    case 10 => CatalogRow10WellFormed(t % 16);
    case 11 => CatalogRow11WellFormed(t % 16);
    case 12 => CatalogRow12WellFormed(t % 16);
    case 13 => CatalogRow13WellFormed(t % 16);
    case 14 => CatalogRow14WellFormed(t % 16);
    case _ => CatalogRow15WellFormed(t % 16);
  }

  lemma {:induction false} CatalogSearchWellFormed(t: int, lo: int, size: int)
    requires 0 <= lo && 1 <= size && lo + size <= 256 && lo <= t < lo + size
    ensures WellFormedTileBytes(CatalogSearch(t, lo, size))
    decreases size
  {
    if size == 1 {
      CatalogRowWellFormed(lo);
    } else {
      var half := size / 2;
      if t < lo + half {
        CatalogSearchWellFormed(t, lo, half);
      } else {
        CatalogSearchWellFormed(t, lo + half, size - half);
      }
    }
  }

  /** Every byte of the catalog is a colour letter. */
  lemma CatalogWellFormed(t: Tile)
    ensures WellFormedTileBytes(CatalogTile(t))
  {
    CatalogSearchWellFormed(t as int, 0, 256);
  }
}
