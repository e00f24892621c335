/** Character tables that the JavaScript string built-ins used by the site depend on,
    generated from the Unicode Character Database, version 15.0. */
module UnicodeTables {

  /** The combining diacritical marks U+0300..U+036F that the diacritic-stripping slug removes. */
  predicate IsCombiningMark(c: char) {
    '\U{300}' <= c <= '\U{36F}'
  }

  /** The characters that JavaScript's `\s` and `String.prototype.trim` treat as white space:
      WhiteSpace and LineTerminator of ECMA-262. */
  predicate IsJsWhitespace(c: char) {
    c == '\t' || c == '\n' || c == '\U{B}' || c == '\U{C}' || c == '\r' || c == ' '
    || c == '\U{A0}' || c == '\U{1680}' || ('\U{2000}' <= c <= '\U{200A}')
    || c == '\U{2028}' || c == '\U{2029}' || c == '\U{202F}' || c == '\U{205F}'
    || c == '\U{3000}' || c == '\U{FEFF}'
  }

  /** An ASCII character followed by nothing but combining marks. */
  predicate IsBaseWithMarks(d: string) {
    d != [] && d[0] < '\U{80}' && forall i :: 1 <= i < |d| ==> IsCombiningMark(d[i])
  }

  /** Full canonical decomposition (Unicode Standard Annex #15) of the 495 characters whose
      decomposition contains an ASCII character; each of them decomposes into an ASCII base
      followed by marks from U+0300..U+036F. Every other character stands for itself. */
  function Decompose(c: char): (d: string)
    ensures c < '\U{80}' ==> d == [c]
    ensures IsJsWhitespace(c) ==> d == [c]
  {
    if c < '\U{80}' then [c]
    else if '\U{80}' <= c < '\U{100}' then DecomposeLatin1(c)
    else if '\U{100}' <= c < '\U{140}' then DecomposeLatinExtendedA1(c)
    else if '\U{140}' <= c < '\U{180}' then DecomposeLatinExtendedA2(c)
    else if '\U{180}' <= c < '\U{1E0}' then DecomposeLatinExtendedB1(c)
    else if '\U{1E0}' <= c < '\U{250}' then DecomposeLatinExtendedB2(c)
    else if '\U{1E00}' <= c < '\U{1E40}' then DecomposeLatinExtendedAdditional1(c)
    else if '\U{1E40}' <= c < '\U{1E80}' then DecomposeLatinExtendedAdditional2(c)
    else if '\U{1E80}' <= c < '\U{1EC0}' then DecomposeLatinExtendedAdditional3(c)
    else if '\U{1EC0}' <= c < '\U{1F00}' then DecomposeLatinExtendedAdditional4(c)
    else DecomposeOther(c)
  }

  /** The characters of Latin-1 Supplement whose decomposition contains ASCII. */
  function DecomposeLatin1(c: char): string {
    match c
    case '\U{C0}' => "A\U{300}"
    case '\U{C1}' => "A\U{301}"
    case '\U{C2}' => "A\U{302}"
    case '\U{C3}' => "A\U{303}"
    case '\U{C4}' => "A\U{308}"
    case '\U{C5}' => "A\U{30A}"
    case '\U{C7}' => "C\U{327}"
    case '\U{C8}' => "E\U{300}"
    case '\U{C9}' => "E\U{301}"
    case '\U{CA}' => "E\U{302}"
    case '\U{CB}' => "E\U{308}"
    case '\U{CC}' => "I\U{300}"
    case '\U{CD}' => "I\U{301}"
    case '\U{CE}' => "I\U{302}"
    case '\U{CF}' => "I\U{308}"
    case '\U{D1}' => "N\U{303}"
    case '\U{D2}' => "O\U{300}"
    case '\U{D3}' => "O\U{301}"
    case '\U{D4}' => "O\U{302}"
    case '\U{D5}' => "O\U{303}"
    case '\U{D6}' => "O\U{308}"
    case '\U{D9}' => "U\U{300}"
    case '\U{DA}' => "U\U{301}"
    case '\U{DB}' => "U\U{302}"
    case '\U{DC}' => "U\U{308}"
    case '\U{DD}' => "Y\U{301}"
    case '\U{E0}' => "a\U{300}"
    case '\U{E1}' => "a\U{301}"
    case '\U{E2}' => "a\U{302}"
    case '\U{E3}' => "a\U{303}"
    case '\U{E4}' => "a\U{308}"
    case '\U{E5}' => "a\U{30A}"
    case '\U{E7}' => "c\U{327}"
    case '\U{E8}' => "e\U{300}"
    case '\U{E9}' => "e\U{301}"
    case '\U{EA}' => "e\U{302}"
    case '\U{EB}' => "e\U{308}"
    case '\U{EC}' => "i\U{300}"
    case '\U{ED}' => "i\U{301}"
    case '\U{EE}' => "i\U{302}"
    case '\U{EF}' => "i\U{308}"
    case '\U{F1}' => "n\U{303}"
    case '\U{F2}' => "o\U{300}"
    case '\U{F3}' => "o\U{301}"
    case '\U{F4}' => "o\U{302}"
    case '\U{F5}' => "o\U{303}"
    case '\U{F6}' => "o\U{308}"
    case '\U{F9}' => "u\U{300}"
    case '\U{FA}' => "u\U{301}"
    case '\U{FB}' => "u\U{302}"
    case '\U{FC}' => "u\U{308}"
    case '\U{FD}' => "y\U{301}"
    case '\U{FF}' => "y\U{308}"
    case _ => [c]
  }

  /** The characters of Latin Extended-A, U+0100..U+013F whose decomposition contains ASCII. */
  function DecomposeLatinExtendedA1(c: char): string {
    match c
    case '\U{100}' => "A\U{304}"
    case '\U{101}' => "a\U{304}"
    case '\U{102}' => "A\U{306}"
    case '\U{103}' => "a\U{306}"
    case '\U{104}' => "A\U{328}"
    case '\U{105}' => "a\U{328}"
    case '\U{106}' => "C\U{301}"
    case '\U{107}' => "c\U{301}"
    case '\U{108}' => "C\U{302}"
    case '\U{109}' => "c\U{302}"
    case '\U{10A}' => "C\U{307}"
    case '\U{10B}' => "c\U{307}"
    case '\U{10C}' => "C\U{30C}"
    case '\U{10D}' => "c\U{30C}"
    case '\U{10E}' => "D\U{30C}"
    case '\U{10F}' => "d\U{30C}"
    case '\U{112}' => "E\U{304}"
    case '\U{113}' => "e\U{304}"
    case '\U{114}' => "E\U{306}"
    case '\U{115}' => "e\U{306}"
    case '\U{116}' => "E\U{307}"
    case '\U{117}' => "e\U{307}"
    case '\U{118}' => "E\U{328}"
    case '\U{119}' => "e\U{328}"
    case '\U{11A}' => "E\U{30C}"
    case '\U{11B}' => "e\U{30C}"
    case '\U{11C}' => "G\U{302}"
    case '\U{11D}' => "g\U{302}"
    case '\U{11E}' => "G\U{306}"
    case '\U{11F}' => "g\U{306}"
    case '\U{120}' => "G\U{307}"
    case '\U{121}' => "g\U{307}"
    case '\U{122}' => "G\U{327}"
    case '\U{123}' => "g\U{327}"
    case '\U{124}' => "H\U{302}"
    case '\U{125}' => "h\U{302}"
    case '\U{128}' => "I\U{303}"
    case '\U{129}' => "i\U{303}"
    case '\U{12A}' => "I\U{304}"
    case '\U{12B}' => "i\U{304}"
    case '\U{12C}' => "I\U{306}"
    case '\U{12D}' => "i\U{306}"
    case '\U{12E}' => "I\U{328}"
    case '\U{12F}' => "i\U{328}"
    case '\U{130}' => "I\U{307}"
    case '\U{134}' => "J\U{302}"
    case '\U{135}' => "j\U{302}"
    case '\U{136}' => "K\U{327}"
    case '\U{137}' => "k\U{327}"
    case '\U{139}' => "L\U{301}"
    case '\U{13A}' => "l\U{301}"
    case '\U{13B}' => "L\U{327}"
    case '\U{13C}' => "l\U{327}"
    case '\U{13D}' => "L\U{30C}"
    case '\U{13E}' => "l\U{30C}"
    case _ => [c]
  }

  /** The characters of Latin Extended-A, U+0140..U+017F whose decomposition contains ASCII. */
  function DecomposeLatinExtendedA2(c: char): string {
    match c
    case '\U{143}' => "N\U{301}"
    case '\U{144}' => "n\U{301}"
    case '\U{145}' => "N\U{327}"
    case '\U{146}' => "n\U{327}"
    case '\U{147}' => "N\U{30C}"
    case '\U{148}' => "n\U{30C}"
    case '\U{14C}' => "O\U{304}"
    case '\U{14D}' => "o\U{304}"
    case '\U{14E}' => "O\U{306}"
    case '\U{14F}' => "o\U{306}"
    case '\U{150}' => "O\U{30B}"
    case '\U{151}' => "o\U{30B}"
    case '\U{154}' => "R\U{301}"
    case '\U{155}' => "r\U{301}"
    case '\U{156}' => "R\U{327}"
    case '\U{157}' => "r\U{327}"
    case '\U{158}' => "R\U{30C}"
    case '\U{159}' => "r\U{30C}"
    case '\U{15A}' => "S\U{301}"
    case '\U{15B}' => "s\U{301}"
    case '\U{15C}' => "S\U{302}"
    case '\U{15D}' => "s\U{302}"
    case '\U{15E}' => "S\U{327}"
    case '\U{15F}' => "s\U{327}"
    case '\U{160}' => "S\U{30C}"
    case '\U{161}' => "s\U{30C}"
    case '\U{162}' => "T\U{327}"
    case '\U{163}' => "t\U{327}"
    case '\U{164}' => "T\U{30C}"
    case '\U{165}' => "t\U{30C}"
    case '\U{168}' => "U\U{303}"
    case '\U{169}' => "u\U{303}"
    case '\U{16A}' => "U\U{304}"
    case '\U{16B}' => "u\U{304}"
    case '\U{16C}' => "U\U{306}"
    case '\U{16D}' => "u\U{306}"
    case '\U{16E}' => "U\U{30A}"
    case '\U{16F}' => "u\U{30A}"
    case '\U{170}' => "U\U{30B}"
    case '\U{171}' => "u\U{30B}"
    case '\U{172}' => "U\U{328}"
    case '\U{173}' => "u\U{328}"
    case '\U{174}' => "W\U{302}"
    case '\U{175}' => "w\U{302}"
    case '\U{176}' => "Y\U{302}"
    case '\U{177}' => "y\U{302}"
    case '\U{178}' => "Y\U{308}"
    case '\U{179}' => "Z\U{301}"
    case '\U{17A}' => "z\U{301}"
    case '\U{17B}' => "Z\U{307}"
    case '\U{17C}' => "z\U{307}"
    case '\U{17D}' => "Z\U{30C}"
    case '\U{17E}' => "z\U{30C}"
    case _ => [c]
  }

  /** The characters of Latin Extended-B, U+0180..U+01DF whose decomposition contains ASCII. */
  function DecomposeLatinExtendedB1(c: char): string {
    match c
    case '\U{1A0}' => "O\U{31B}"
    case '\U{1A1}' => "o\U{31B}"
    case '\U{1AF}' => "U\U{31B}"
    case '\U{1B0}' => "u\U{31B}"
    case '\U{1CD}' => "A\U{30C}"
    case '\U{1CE}' => "a\U{30C}"
    case '\U{1CF}' => "I\U{30C}"
    case '\U{1D0}' => "i\U{30C}"
    case '\U{1D1}' => "O\U{30C}"
    case '\U{1D2}' => "o\U{30C}"
    case '\U{1D3}' => "U\U{30C}"
    case '\U{1D4}' => "u\U{30C}"
    case '\U{1D5}' => "U\U{308}\U{304}"
    case '\U{1D6}' => "u\U{308}\U{304}"
    case '\U{1D7}' => "U\U{308}\U{301}"
    case '\U{1D8}' => "u\U{308}\U{301}"
    case '\U{1D9}' => "U\U{308}\U{30C}"
    case '\U{1DA}' => "u\U{308}\U{30C}"
    case '\U{1DB}' => "U\U{308}\U{300}"
    case '\U{1DC}' => "u\U{308}\U{300}"
    case '\U{1DE}' => "A\U{308}\U{304}"
    case '\U{1DF}' => "a\U{308}\U{304}"
    case _ => [c]
  }

  /** The characters of Latin Extended-B, U+01E0..U+024F whose decomposition contains ASCII. */
  function DecomposeLatinExtendedB2(c: char): string {
    match c
    case '\U{1E0}' => "A\U{307}\U{304}"
    case '\U{1E1}' => "a\U{307}\U{304}"
    case '\U{1E6}' => "G\U{30C}"
    case '\U{1E7}' => "g\U{30C}"
    case '\U{1E8}' => "K\U{30C}"
    case '\U{1E9}' => "k\U{30C}"
    case '\U{1EA}' => "O\U{328}"
    case '\U{1EB}' => "o\U{328}"
    case '\U{1EC}' => "O\U{328}\U{304}"
    case '\U{1ED}' => "o\U{328}\U{304}"
    case '\U{1F0}' => "j\U{30C}"
    case '\U{1F4}' => "G\U{301}"
    case '\U{1F5}' => "g\U{301}"
    case '\U{1F8}' => "N\U{300}"
    case '\U{1F9}' => "n\U{300}"
    case '\U{1FA}' => "A\U{30A}\U{301}"
    case '\U{1FB}' => "a\U{30A}\U{301}"
    case '\U{200}' => "A\U{30F}"
    case '\U{201}' => "a\U{30F}"
    case '\U{202}' => "A\U{311}"
    case '\U{203}' => "a\U{311}"
    case '\U{204}' => "E\U{30F}"
    case '\U{205}' => "e\U{30F}"
    case '\U{206}' => "E\U{311}"
    case '\U{207}' => "e\U{311}"
    case '\U{208}' => "I\U{30F}"
    case '\U{209}' => "i\U{30F}"
    case '\U{20A}' => "I\U{311}"
    case '\U{20B}' => "i\U{311}"
    case '\U{20C}' => "O\U{30F}"
    case '\U{20D}' => "o\U{30F}"
    case '\U{20E}' => "O\U{311}"
    case '\U{20F}' => "o\U{311}"
    case '\U{210}' => "R\U{30F}"
    case '\U{211}' => "r\U{30F}"
    case '\U{212}' => "R\U{311}"
    case '\U{213}' => "r\U{311}"
    case '\U{214}' => "U\U{30F}"
    case '\U{215}' => "u\U{30F}"
    case '\U{216}' => "U\U{311}"
    case '\U{217}' => "u\U{311}"
    case '\U{218}' => "S\U{326}"
    case '\U{219}' => "s\U{326}"
    case '\U{21A}' => "T\U{326}"
    case '\U{21B}' => "t\U{326}"
    case '\U{21E}' => "H\U{30C}"
    case '\U{21F}' => "h\U{30C}"
    case '\U{226}' => "A\U{307}"
    case '\U{227}' => "a\U{307}"
    case '\U{228}' => "E\U{327}"
    case '\U{229}' => "e\U{327}"
    case '\U{22A}' => "O\U{308}\U{304}"
    case '\U{22B}' => "o\U{308}\U{304}"
    case '\U{22C}' => "O\U{303}\U{304}"
    case '\U{22D}' => "o\U{303}\U{304}"
    case '\U{22E}' => "O\U{307}"
    case '\U{22F}' => "o\U{307}"
    case '\U{230}' => "O\U{307}\U{304}"
    case '\U{231}' => "o\U{307}\U{304}"
    case '\U{232}' => "Y\U{304}"
    case '\U{233}' => "y\U{304}"
    case _ => [c]
  }

  /** The characters of Latin Extended Additional, U+1E00..U+1E3F whose decomposition contains ASCII. */
  function DecomposeLatinExtendedAdditional1(c: char): string {
    match c
    case '\U{1E00}' => "A\U{325}"
    case '\U{1E01}' => "a\U{325}"
    case '\U{1E02}' => "B\U{307}"
    case '\U{1E03}' => "b\U{307}"
    case '\U{1E04}' => "B\U{323}"
    case '\U{1E05}' => "b\U{323}"
    case '\U{1E06}' => "B\U{331}"
    case '\U{1E07}' => "b\U{331}"
    case '\U{1E08}' => "C\U{327}\U{301}"
    case '\U{1E09}' => "c\U{327}\U{301}"
    case '\U{1E0A}' => "D\U{307}"
    case '\U{1E0B}' => "d\U{307}"
    case '\U{1E0C}' => "D\U{323}"
    case '\U{1E0D}' => "d\U{323}"
    case '\U{1E0E}' => "D\U{331}"
    case '\U{1E0F}' => "d\U{331}"
    case '\U{1E10}' => "D\U{327}"
    case '\U{1E11}' => "d\U{327}"
    case '\U{1E12}' => "D\U{32D}"
    case '\U{1E13}' => "d\U{32D}"
    case '\U{1E14}' => "E\U{304}\U{300}"
    case '\U{1E15}' => "e\U{304}\U{300}"
    case '\U{1E16}' => "E\U{304}\U{301}"
    case '\U{1E17}' => "e\U{304}\U{301}"
    case '\U{1E18}' => "E\U{32D}"
    case '\U{1E19}' => "e\U{32D}"
    case '\U{1E1A}' => "E\U{330}"
    case '\U{1E1B}' => "e\U{330}"
    case '\U{1E1C}' => "E\U{327}\U{306}"
    case '\U{1E1D}' => "e\U{327}\U{306}"
    case '\U{1E1E}' => "F\U{307}"
    case '\U{1E1F}' => "f\U{307}"
    case '\U{1E20}' => "G\U{304}"
    case '\U{1E21}' => "g\U{304}"
    case '\U{1E22}' => "H\U{307}"
    case '\U{1E23}' => "h\U{307}"
    case '\U{1E24}' => "H\U{323}"
    case '\U{1E25}' => "h\U{323}"
    case '\U{1E26}' => "H\U{308}"
    case '\U{1E27}' => "h\U{308}"
    case '\U{1E28}' => "H\U{327}"
    case '\U{1E29}' => "h\U{327}"
    case '\U{1E2A}' => "H\U{32E}"
    case '\U{1E2B}' => "h\U{32E}"
    case '\U{1E2C}' => "I\U{330}"
    case '\U{1E2D}' => "i\U{330}"
    case '\U{1E2E}' => "I\U{308}\U{301}"
    case '\U{1E2F}' => "i\U{308}\U{301}"
    case '\U{1E30}' => "K\U{301}"
    case '\U{1E31}' => "k\U{301}"
    case '\U{1E32}' => "K\U{323}"
    case '\U{1E33}' => "k\U{323}"
    case '\U{1E34}' => "K\U{331}"
    case '\U{1E35}' => "k\U{331}"
    case '\U{1E36}' => "L\U{323}"
    case '\U{1E37}' => "l\U{323}"
    case '\U{1E38}' => "L\U{323}\U{304}"
    case '\U{1E39}' => "l\U{323}\U{304}"
    case '\U{1E3A}' => "L\U{331}"
    case '\U{1E3B}' => "l\U{331}"
    case '\U{1E3C}' => "L\U{32D}"
    case '\U{1E3D}' => "l\U{32D}"
    case '\U{1E3E}' => "M\U{301}"
    case '\U{1E3F}' => "m\U{301}"
    case _ => [c]
  }

  /** The characters of Latin Extended Additional, U+1E40..U+1E7F whose decomposition contains ASCII. */
  function DecomposeLatinExtendedAdditional2(c: char): string {
    match c
    case '\U{1E40}' => "M\U{307}"
    case '\U{1E41}' => "m\U{307}"
    case '\U{1E42}' => "M\U{323}"
    case '\U{1E43}' => "m\U{323}"
    case '\U{1E44}' => "N\U{307}"
    case '\U{1E45}' => "n\U{307}"
    case '\U{1E46}' => "N\U{323}"
    case '\U{1E47}' => "n\U{323}"
    case '\U{1E48}' => "N\U{331}"
    case '\U{1E49}' => "n\U{331}"
    case '\U{1E4A}' => "N\U{32D}"
    case '\U{1E4B}' => "n\U{32D}"
    case '\U{1E4C}' => "O\U{303}\U{301}"
    case '\U{1E4D}' => "o\U{303}\U{301}"
    case '\U{1E4E}' => "O\U{303}\U{308}"
    case '\U{1E4F}' => "o\U{303}\U{308}"
    case '\U{1E50}' => "O\U{304}\U{300}"
    case '\U{1E51}' => "o\U{304}\U{300}"
    case '\U{1E52}' => "O\U{304}\U{301}"
    case '\U{1E53}' => "o\U{304}\U{301}"
    case '\U{1E54}' => "P\U{301}"
    case '\U{1E55}' => "p\U{301}"
    case '\U{1E56}' => "P\U{307}"
    case '\U{1E57}' => "p\U{307}"
    case '\U{1E58}' => "R\U{307}"
    case '\U{1E59}' => "r\U{307}"
    case '\U{1E5A}' => "R\U{323}"
    case '\U{1E5B}' => "r\U{323}"
    case '\U{1E5C}' => "R\U{323}\U{304}"
    case '\U{1E5D}' => "r\U{323}\U{304}"
    case '\U{1E5E}' => "R\U{331}"
    case '\U{1E5F}' => "r\U{331}"
    case '\U{1E60}' => "S\U{307}"
    case '\U{1E61}' => "s\U{307}"
    case '\U{1E62}' => "S\U{323}"
    case '\U{1E63}' => "s\U{323}"
    case '\U{1E64}' => "S\U{301}\U{307}"
    case '\U{1E65}' => "s\U{301}\U{307}"
    case '\U{1E66}' => "S\U{30C}\U{307}"
    case '\U{1E67}' => "s\U{30C}\U{307}"
    case '\U{1E68}' => "S\U{323}\U{307}"
    case '\U{1E69}' => "s\U{323}\U{307}"
    case '\U{1E6A}' => "T\U{307}"
    case '\U{1E6B}' => "t\U{307}"
    case '\U{1E6C}' => "T\U{323}"
    case '\U{1E6D}' => "t\U{323}"
    case '\U{1E6E}' => "T\U{331}"
    case '\U{1E6F}' => "t\U{331}"
    case '\U{1E70}' => "T\U{32D}"
    case '\U{1E71}' => "t\U{32D}"
    case '\U{1E72}' => "U\U{324}"
    case '\U{1E73}' => "u\U{324}"
    case '\U{1E74}' => "U\U{330}"
    case '\U{1E75}' => "u\U{330}"
    case '\U{1E76}' => "U\U{32D}"
    case '\U{1E77}' => "u\U{32D}"
    case '\U{1E78}' => "U\U{303}\U{301}"
    case '\U{1E79}' => "u\U{303}\U{301}"
    case '\U{1E7A}' => "U\U{304}\U{308}"
    case '\U{1E7B}' => "u\U{304}\U{308}"
    case '\U{1E7C}' => "V\U{303}"
    case '\U{1E7D}' => "v\U{303}"
    case '\U{1E7E}' => "V\U{323}"
    case '\U{1E7F}' => "v\U{323}"
    case _ => [c]
  }

  /** The characters of Latin Extended Additional, U+1E80..U+1EBF whose decomposition contains ASCII. */
  function DecomposeLatinExtendedAdditional3(c: char): string {
    match c
    case '\U{1E80}' => "W\U{300}"
    case '\U{1E81}' => "w\U{300}"
    case '\U{1E82}' => "W\U{301}"
    case '\U{1E83}' => "w\U{301}"
    case '\U{1E84}' => "W\U{308}"
    case '\U{1E85}' => "w\U{308}"
    case '\U{1E86}' => "W\U{307}"
    case '\U{1E87}' => "w\U{307}"
    case '\U{1E88}' => "W\U{323}"
    case '\U{1E89}' => "w\U{323}"
    case '\U{1E8A}' => "X\U{307}"
    case '\U{1E8B}' => "x\U{307}"
    case '\U{1E8C}' => "X\U{308}"
    case '\U{1E8D}' => "x\U{308}"
    case '\U{1E8E}' => "Y\U{307}"
    case '\U{1E8F}' => "y\U{307}"
    case '\U{1E90}' => "Z\U{302}"
    case '\U{1E91}' => "z\U{302}"
    case '\U{1E92}' => "Z\U{323}"
    case '\U{1E93}' => "z\U{323}"
    case '\U{1E94}' => "Z\U{331}"
    case '\U{1E95}' => "z\U{331}"
    case '\U{1E96}' => "h\U{331}"
    case '\U{1E97}' => "t\U{308}"
    case '\U{1E98}' => "w\U{30A}"
    case '\U{1E99}' => "y\U{30A}"
    case '\U{1EA0}' => "A\U{323}"
    case '\U{1EA1}' => "a\U{323}"
    case '\U{1EA2}' => "A\U{309}"
    case '\U{1EA3}' => "a\U{309}"
    case '\U{1EA4}' => "A\U{302}\U{301}"
    case '\U{1EA5}' => "a\U{302}\U{301}"
    case '\U{1EA6}' => "A\U{302}\U{300}"
    case '\U{1EA7}' => "a\U{302}\U{300}"
    case '\U{1EA8}' => "A\U{302}\U{309}"
    case '\U{1EA9}' => "a\U{302}\U{309}"
    case '\U{1EAA}' => "A\U{302}\U{303}"
    case '\U{1EAB}' => "a\U{302}\U{303}"
    case '\U{1EAC}' => "A\U{323}\U{302}"
    case '\U{1EAD}' => "a\U{323}\U{302}"
    case '\U{1EAE}' => "A\U{306}\U{301}"
    case '\U{1EAF}' => "a\U{306}\U{301}"
    case '\U{1EB0}' => "A\U{306}\U{300}"
    case '\U{1EB1}' => "a\U{306}\U{300}"
    case '\U{1EB2}' => "A\U{306}\U{309}"
    case '\U{1EB3}' => "a\U{306}\U{309}"
    case '\U{1EB4}' => "A\U{306}\U{303}"
    case '\U{1EB5}' => "a\U{306}\U{303}"
    case '\U{1EB6}' => "A\U{323}\U{306}"
    case '\U{1EB7}' => "a\U{323}\U{306}"
    case '\U{1EB8}' => "E\U{323}"
    case '\U{1EB9}' => "e\U{323}"
    case '\U{1EBA}' => "E\U{309}"
    case '\U{1EBB}' => "e\U{309}"
    case '\U{1EBC}' => "E\U{303}"
    case '\U{1EBD}' => "e\U{303}"
    case '\U{1EBE}' => "E\U{302}\U{301}"
    case '\U{1EBF}' => "e\U{302}\U{301}"
    case _ => [c]
  }

  /** The characters of Latin Extended Additional, U+1EC0..U+1EFF whose decomposition contains ASCII. */
  function DecomposeLatinExtendedAdditional4(c: char): string {
    match c
    case '\U{1EC0}' => "E\U{302}\U{300}"
    case '\U{1EC1}' => "e\U{302}\U{300}"
    case '\U{1EC2}' => "E\U{302}\U{309}"
    case '\U{1EC3}' => "e\U{302}\U{309}"
    case '\U{1EC4}' => "E\U{302}\U{303}"
    case '\U{1EC5}' => "e\U{302}\U{303}"
    case '\U{1EC6}' => "E\U{323}\U{302}"
    case '\U{1EC7}' => "e\U{323}\U{302}"
    case '\U{1EC8}' => "I\U{309}"
    case '\U{1EC9}' => "i\U{309}"
    case '\U{1ECA}' => "I\U{323}"
    case '\U{1ECB}' => "i\U{323}"
    case '\U{1ECC}' => "O\U{323}"
    case '\U{1ECD}' => "o\U{323}"
    case '\U{1ECE}' => "O\U{309}"
    case '\U{1ECF}' => "o\U{309}"
    case '\U{1ED0}' => "O\U{302}\U{301}"
    case '\U{1ED1}' => "o\U{302}\U{301}"
    case '\U{1ED2}' => "O\U{302}\U{300}"
    case '\U{1ED3}' => "o\U{302}\U{300}"
    case '\U{1ED4}' => "O\U{302}\U{309}"
    case '\U{1ED5}' => "o\U{302}\U{309}"
    case '\U{1ED6}' => "O\U{302}\U{303}"
    case '\U{1ED7}' => "o\U{302}\U{303}"
    case '\U{1ED8}' => "O\U{323}\U{302}"
    case '\U{1ED9}' => "o\U{323}\U{302}"
    case '\U{1EDA}' => "O\U{31B}\U{301}"
    case '\U{1EDB}' => "o\U{31B}\U{301}"
    case '\U{1EDC}' => "O\U{31B}\U{300}"
    case '\U{1EDD}' => "o\U{31B}\U{300}"
    case '\U{1EDE}' => "O\U{31B}\U{309}"
    case '\U{1EDF}' => "o\U{31B}\U{309}"
    case '\U{1EE0}' => "O\U{31B}\U{303}"
    case '\U{1EE1}' => "o\U{31B}\U{303}"
    case '\U{1EE2}' => "O\U{31B}\U{323}"
    case '\U{1EE3}' => "o\U{31B}\U{323}"
    case '\U{1EE4}' => "U\U{323}"
    case '\U{1EE5}' => "u\U{323}"
    case '\U{1EE6}' => "U\U{309}"
    case '\U{1EE7}' => "u\U{309}"
    case '\U{1EE8}' => "U\U{31B}\U{301}"
    case '\U{1EE9}' => "u\U{31B}\U{301}"
    case '\U{1EEA}' => "U\U{31B}\U{300}"
    case '\U{1EEB}' => "u\U{31B}\U{300}"
    case '\U{1EEC}' => "U\U{31B}\U{309}"
    case '\U{1EED}' => "u\U{31B}\U{309}"
    case '\U{1EEE}' => "U\U{31B}\U{303}"
    case '\U{1EEF}' => "u\U{31B}\U{303}"
    case '\U{1EF0}' => "U\U{31B}\U{323}"
    case '\U{1EF1}' => "u\U{31B}\U{323}"
    case '\U{1EF2}' => "Y\U{300}"
    case '\U{1EF3}' => "y\U{300}"
    case '\U{1EF4}' => "Y\U{323}"
    case '\U{1EF5}' => "y\U{323}"
    case '\U{1EF6}' => "Y\U{309}"
    case '\U{1EF7}' => "y\U{309}"
    case '\U{1EF8}' => "Y\U{303}"
    case '\U{1EF9}' => "y\U{303}"
    case _ => [c]
  }

  /** The characters of the remaining blocks whose decomposition contains ASCII. */
  function DecomposeOther(c: char): string {
    match c
    case '\U{37E}' => ";"
    case '\U{1FEF}' => "`"
    case '\U{212A}' => "K"
    case '\U{212B}' => "A\U{30A}"
    case '\U{2260}' => "=\U{338}"
    case '\U{226E}' => "<\U{338}"
    case '\U{226F}' => ">\U{338}"
    case _ => [c]
  }

  /** The combining marks have no decomposition in the tables. */
  lemma DecomposeOfMark(c: char)
    requires IsCombiningMark(c)
    ensures Decompose(c) == [c]
  {
  }

  /** Every decomposition in the tables is an ASCII base followed by combining marks. */
  lemma DecomposeShape(c: char)
    ensures Decompose(c) == [c] || IsBaseWithMarks(Decompose(c))
  {
    DecomposeLatin1Shape(c);
    DecomposeLatinExtendedA1Shape(c);
    DecomposeLatinExtendedA2Shape(c);
    DecomposeLatinExtendedB1Shape(c);
    DecomposeLatinExtendedB2Shape(c);
    DecomposeLatinExtendedAdditional1Shape(c);
    DecomposeLatinExtendedAdditional2Shape(c);
    DecomposeLatinExtendedAdditional3Shape(c);
    DecomposeLatinExtendedAdditional4Shape(c);
    DecomposeOtherShape(c);
  }

  lemma DecomposeLatin1Shape(c: char)
    ensures DecomposeLatin1(c) == [c] || IsBaseWithMarks(DecomposeLatin1(c))
  {
    if c < '\U{CE}' {
      DecomposeLatin1Shape1(c);
    } else if c < '\U{E0}' {
      DecomposeLatin1Shape2(c);
    } else if c < '\U{EE}' {
      DecomposeLatin1Shape3(c);
    } else {
      DecomposeLatin1Shape4(c);
    }
  }

  lemma DecomposeLatin1Shape1(c: char)
    requires c < '\U{CE}'
    ensures DecomposeLatin1(c) == [c] || IsBaseWithMarks(DecomposeLatin1(c))
  {
  }

  lemma DecomposeLatin1Shape2(c: char)
    requires '\U{CE}' <= c < '\U{E0}'
    ensures DecomposeLatin1(c) == [c] || IsBaseWithMarks(DecomposeLatin1(c))
  {
  }

  lemma DecomposeLatin1Shape3(c: char)
    requires '\U{E0}' <= c < '\U{EE}'
    ensures DecomposeLatin1(c) == [c] || IsBaseWithMarks(DecomposeLatin1(c))
  {
  }

  lemma DecomposeLatin1Shape4(c: char)
    requires c >= '\U{EE}'
    ensures DecomposeLatin1(c) == [c] || IsBaseWithMarks(DecomposeLatin1(c))
  {
  }

  lemma DecomposeLatinExtendedA1Shape(c: char)
    ensures DecomposeLatinExtendedA1(c) == [c] || IsBaseWithMarks(DecomposeLatinExtendedA1(c))
  {
    if c < '\U{10D}' {
      DecomposeLatinExtendedA1Shape1(c);
    } else if c < '\U{11D}' {
      DecomposeLatinExtendedA1Shape2(c);
    } else if c < '\U{12D}' {
      DecomposeLatinExtendedA1Shape3(c);
    } else {
      DecomposeLatinExtendedA1Shape4(c);
    }
  }

  lemma DecomposeLatinExtendedA1Shape1(c: char)
    requires c < '\U{10D}'
    ensures DecomposeLatinExtendedA1(c) == [c] || IsBaseWithMarks(DecomposeLatinExtendedA1(c))
  {
  }

  lemma DecomposeLatinExtendedA1Shape2(c: char)
    requires '\U{10D}' <= c < '\U{11D}'
    ensures DecomposeLatinExtendedA1(c) == [c] || IsBaseWithMarks(DecomposeLatinExtendedA1(c))
  {
  }

  lemma DecomposeLatinExtendedA1Shape3(c: char)
    requires '\U{11D}' <= c < '\U{12D}'
    ensures DecomposeLatinExtendedA1(c) == [c] || IsBaseWithMarks(DecomposeLatinExtendedA1(c))
  {
  }

  lemma DecomposeLatinExtendedA1Shape4(c: char)
    requires c >= '\U{12D}'
    ensures DecomposeLatinExtendedA1(c) == [c] || IsBaseWithMarks(DecomposeLatinExtendedA1(c))
  {
  }

  lemma DecomposeLatinExtendedA2Shape(c: char)
    ensures DecomposeLatinExtendedA2(c) == [c] || IsBaseWithMarks(DecomposeLatinExtendedA2(c))
  {
    if c < '\U{155}' {
      DecomposeLatinExtendedA2Shape1(c);
    } else if c < '\U{162}' {
      DecomposeLatinExtendedA2Shape2(c);
    } else if c < '\U{171}' {
      DecomposeLatinExtendedA2Shape3(c);
    } else {
      DecomposeLatinExtendedA2Shape4(c);
    }
  }

  lemma DecomposeLatinExtendedA2Shape1(c: char)
    requires c < '\U{155}'
    ensures DecomposeLatinExtendedA2(c) == [c] || IsBaseWithMarks(DecomposeLatinExtendedA2(c))
  {
  }

  lemma DecomposeLatinExtendedA2Shape2(c: char)
    requires '\U{155}' <= c < '\U{162}'
    ensures DecomposeLatinExtendedA2(c) == [c] || IsBaseWithMarks(DecomposeLatinExtendedA2(c))
  {
  }

  lemma DecomposeLatinExtendedA2Shape3(c: char)
    requires '\U{162}' <= c < '\U{171}'
    ensures DecomposeLatinExtendedA2(c) == [c] || IsBaseWithMarks(DecomposeLatinExtendedA2(c))
  {
  }

  lemma DecomposeLatinExtendedA2Shape4(c: char)
    requires c >= '\U{171}'
    ensures DecomposeLatinExtendedA2(c) == [c] || IsBaseWithMarks(DecomposeLatinExtendedA2(c))
  {
  }

  lemma DecomposeLatinExtendedB1Shape(c: char)
    ensures DecomposeLatinExtendedB1(c) == [c] || IsBaseWithMarks(DecomposeLatinExtendedB1(c))
  {
    if c < '\U{1CE}' {
      DecomposeLatinExtendedB1Shape1(c);
    } else if c < '\U{1D4}' {
      DecomposeLatinExtendedB1Shape2(c);
    } else if c < '\U{1D9}' {
      DecomposeLatinExtendedB1Shape3(c);
    } else {
      DecomposeLatinExtendedB1Shape4(c);
    }
  }

  lemma DecomposeLatinExtendedB1Shape1(c: char)
    requires c < '\U{1CE}'
    ensures DecomposeLatinExtendedB1(c) == [c] || IsBaseWithMarks(DecomposeLatinExtendedB1(c))
  {
  }

  lemma DecomposeLatinExtendedB1Shape2(c: char)
    requires '\U{1CE}' <= c < '\U{1D4}'
    ensures DecomposeLatinExtendedB1(c) == [c] || IsBaseWithMarks(DecomposeLatinExtendedB1(c))
  {
  }

  lemma DecomposeLatinExtendedB1Shape3(c: char)
    requires '\U{1D4}' <= c < '\U{1D9}'
    ensures DecomposeLatinExtendedB1(c) == [c] || IsBaseWithMarks(DecomposeLatinExtendedB1(c))
  {
  }

  lemma DecomposeLatinExtendedB1Shape4(c: char)
    requires c >= '\U{1D9}'
    ensures DecomposeLatinExtendedB1(c) == [c] || IsBaseWithMarks(DecomposeLatinExtendedB1(c))
  {
  }

  lemma DecomposeLatinExtendedB2Shape(c: char)
    ensures DecomposeLatinExtendedB2(c) == [c] || IsBaseWithMarks(DecomposeLatinExtendedB2(c))
  {
    if c < '\U{1FA}' {
      DecomposeLatinExtendedB2Shape1(c);
    } else if c < '\U{20D}' {
      DecomposeLatinExtendedB2Shape2(c);
    } else if c < '\U{21E}' {
      DecomposeLatinExtendedB2Shape3(c);
    } else {
      DecomposeLatinExtendedB2Shape4(c);
    }
  }

  lemma DecomposeLatinExtendedB2Shape1(c: char)
    requires c < '\U{1FA}'
    ensures DecomposeLatinExtendedB2(c) == [c] || IsBaseWithMarks(DecomposeLatinExtendedB2(c))
  {
  }

  lemma DecomposeLatinExtendedB2Shape2(c: char)
    requires '\U{1FA}' <= c < '\U{20D}'
    ensures DecomposeLatinExtendedB2(c) == [c] || IsBaseWithMarks(DecomposeLatinExtendedB2(c))
  {
  }

  lemma DecomposeLatinExtendedB2Shape3(c: char)
    requires '\U{20D}' <= c < '\U{21E}'
    ensures DecomposeLatinExtendedB2(c) == [c] || IsBaseWithMarks(DecomposeLatinExtendedB2(c))
  {
  }

  lemma DecomposeLatinExtendedB2Shape4(c: char)
    requires c >= '\U{21E}'
    ensures DecomposeLatinExtendedB2(c) == [c] || IsBaseWithMarks(DecomposeLatinExtendedB2(c))
  {
  }

  lemma DecomposeLatinExtendedAdditional1Shape(c: char)
    ensures DecomposeLatinExtendedAdditional1(c) == [c] || IsBaseWithMarks(DecomposeLatinExtendedAdditional1(c))
  {
    if c < '\U{1E10}' {
      DecomposeLatinExtendedAdditional1Shape1(c);
    } else if c < '\U{1E20}' {
      DecomposeLatinExtendedAdditional1Shape2(c);
    } else if c < '\U{1E30}' {
      DecomposeLatinExtendedAdditional1Shape3(c);
    } else {
      DecomposeLatinExtendedAdditional1Shape4(c);
    }
  }

  lemma DecomposeLatinExtendedAdditional1Shape1(c: char)
    requires c < '\U{1E10}'
    ensures DecomposeLatinExtendedAdditional1(c) == [c] || IsBaseWithMarks(DecomposeLatinExtendedAdditional1(c))
  {
  }

  lemma DecomposeLatinExtendedAdditional1Shape2(c: char)
    requires '\U{1E10}' <= c < '\U{1E20}'
    ensures DecomposeLatinExtendedAdditional1(c) == [c] || IsBaseWithMarks(DecomposeLatinExtendedAdditional1(c))
  {
  }

  lemma DecomposeLatinExtendedAdditional1Shape3(c: char)
    requires '\U{1E20}' <= c < '\U{1E30}'
    ensures DecomposeLatinExtendedAdditional1(c) == [c] || IsBaseWithMarks(DecomposeLatinExtendedAdditional1(c))
  {
  }

  lemma DecomposeLatinExtendedAdditional1Shape4(c: char)
    requires c >= '\U{1E30}'
    ensures DecomposeLatinExtendedAdditional1(c) == [c] || IsBaseWithMarks(DecomposeLatinExtendedAdditional1(c))
  {
  }

  lemma DecomposeLatinExtendedAdditional2Shape(c: char)
    ensures DecomposeLatinExtendedAdditional2(c) == [c] || IsBaseWithMarks(DecomposeLatinExtendedAdditional2(c))
  {
    if c < '\U{1E50}' {
      DecomposeLatinExtendedAdditional2Shape1(c);
    } else if c < '\U{1E60}' {
      DecomposeLatinExtendedAdditional2Shape2(c);
    } else if c < '\U{1E70}' {
      DecomposeLatinExtendedAdditional2Shape3(c);
    } else {
      DecomposeLatinExtendedAdditional2Shape4(c);
    }
  }

  lemma DecomposeLatinExtendedAdditional2Shape1(c: char)
    requires c < '\U{1E50}'
    ensures DecomposeLatinExtendedAdditional2(c) == [c] || IsBaseWithMarks(DecomposeLatinExtendedAdditional2(c))
  {
  }

  lemma DecomposeLatinExtendedAdditional2Shape2(c: char)
    requires '\U{1E50}' <= c < '\U{1E60}'
    ensures DecomposeLatinExtendedAdditional2(c) == [c] || IsBaseWithMarks(DecomposeLatinExtendedAdditional2(c))
  {
  }

  lemma DecomposeLatinExtendedAdditional2Shape3(c: char)
    requires '\U{1E60}' <= c < '\U{1E70}'
    ensures DecomposeLatinExtendedAdditional2(c) == [c] || IsBaseWithMarks(DecomposeLatinExtendedAdditional2(c))
  {
  }

  lemma DecomposeLatinExtendedAdditional2Shape4(c: char)
    requires c >= '\U{1E70}'
    ensures DecomposeLatinExtendedAdditional2(c) == [c] || IsBaseWithMarks(DecomposeLatinExtendedAdditional2(c))
  {
  }

  lemma DecomposeLatinExtendedAdditional3Shape(c: char)
    ensures DecomposeLatinExtendedAdditional3(c) == [c] || IsBaseWithMarks(DecomposeLatinExtendedAdditional3(c))
  {
    if c < '\U{1E8E}' {
      DecomposeLatinExtendedAdditional3Shape1(c);
    } else if c < '\U{1EA3}' {
      DecomposeLatinExtendedAdditional3Shape2(c);
    } else if c < '\U{1EB1}' {
      DecomposeLatinExtendedAdditional3Shape3(c);
    } else {
      DecomposeLatinExtendedAdditional3Shape4(c);
    }
  }

  lemma DecomposeLatinExtendedAdditional3Shape1(c: char)
    requires c < '\U{1E8E}'
    ensures DecomposeLatinExtendedAdditional3(c) == [c] || IsBaseWithMarks(DecomposeLatinExtendedAdditional3(c))
  {
  }

  lemma DecomposeLatinExtendedAdditional3Shape2(c: char)
    requires '\U{1E8E}' <= c < '\U{1EA3}'
    ensures DecomposeLatinExtendedAdditional3(c) == [c] || IsBaseWithMarks(DecomposeLatinExtendedAdditional3(c))
  {
  }

  lemma DecomposeLatinExtendedAdditional3Shape3(c: char)
    requires '\U{1EA3}' <= c < '\U{1EB1}'
    ensures DecomposeLatinExtendedAdditional3(c) == [c] || IsBaseWithMarks(DecomposeLatinExtendedAdditional3(c))
  {
  }

  lemma DecomposeLatinExtendedAdditional3Shape4(c: char)
    requires c >= '\U{1EB1}'
    ensures DecomposeLatinExtendedAdditional3(c) == [c] || IsBaseWithMarks(DecomposeLatinExtendedAdditional3(c))
  {
  }

  lemma DecomposeLatinExtendedAdditional4Shape(c: char)
    ensures DecomposeLatinExtendedAdditional4(c) == [c] || IsBaseWithMarks(DecomposeLatinExtendedAdditional4(c))
  {
    if c < '\U{1ECE}' {
      DecomposeLatinExtendedAdditional4Shape1(c);
    } else if c < '\U{1EDD}' {
      DecomposeLatinExtendedAdditional4Shape2(c);
    } else if c < '\U{1EEB}' {
      DecomposeLatinExtendedAdditional4Shape3(c);
    } else {
      DecomposeLatinExtendedAdditional4Shape4(c);
    }
  }

  lemma DecomposeLatinExtendedAdditional4Shape1(c: char)
    requires c < '\U{1ECE}'
    ensures DecomposeLatinExtendedAdditional4(c) == [c] || IsBaseWithMarks(DecomposeLatinExtendedAdditional4(c))
  {
  }

  lemma DecomposeLatinExtendedAdditional4Shape2(c: char)
    requires '\U{1ECE}' <= c < '\U{1EDD}'
    ensures DecomposeLatinExtendedAdditional4(c) == [c] || IsBaseWithMarks(DecomposeLatinExtendedAdditional4(c))
  {
  }

  lemma DecomposeLatinExtendedAdditional4Shape3(c: char)
    requires '\U{1EDD}' <= c < '\U{1EEB}'
    ensures DecomposeLatinExtendedAdditional4(c) == [c] || IsBaseWithMarks(DecomposeLatinExtendedAdditional4(c))
  {
  }

  lemma DecomposeLatinExtendedAdditional4Shape4(c: char)
    requires c >= '\U{1EEB}'
    ensures DecomposeLatinExtendedAdditional4(c) == [c] || IsBaseWithMarks(DecomposeLatinExtendedAdditional4(c))
  {
  }

  lemma DecomposeOtherShape(c: char)
    ensures DecomposeOther(c) == [c] || IsBaseWithMarks(DecomposeOther(c))
  {
  }

  /** The simple (one-to-one) lower-case mapping of the Unicode Character Database. No
      character lower-cases to an upper-case ASCII letter, and white space is caseless.
      U+0130, whose lower-case form is two characters, is handled by the string-level
      function `JsString.ToLowerCase`, which is the only caller. */
  function SimpleLower(c: char): (r: char)
    ensures c < '\U{80}' ==> r == (if 'A' <= c <= 'Z' then (c as int + 32) as char else c)
    ensures !('A' <= r <= 'Z')
    ensures IsJsWhitespace(c) ==> r == c
  {
    if c < '\U{80}' then (if 'A' <= c <= 'Z' then (c as int + 32) as char else c)
    else LowerPart1(c)
  }

  // The mapping above U+007F, as runs of code points that move by the same offset
  // (every code point of a run, or every second one).

  /** Runs from U+00C0 to U+0194, then the later ones. */
  function LowerPart1(c: char): (r: char)
    requires c >= '\U{80}'
    ensures !('A' <= r <= 'Z')
    ensures IsJsWhitespace(c) ==> r == c
  {
    if '\U{C0}' <= c <= '\U{D6}' then (c as int + 32) as char
    else if '\U{D8}' <= c <= '\U{DE}' then (c as int + 32) as char
    else if '\U{100}' <= c <= '\U{12E}' && (c as int - 0x100) % 2 == 0 then (c as int + 1) as char
    else if '\U{132}' <= c <= '\U{136}' && (c as int - 0x132) % 2 == 0 then (c as int + 1) as char
    else if '\U{139}' <= c <= '\U{147}' && (c as int - 0x139) % 2 == 0 then (c as int + 1) as char
    else if '\U{14A}' <= c <= '\U{176}' && (c as int - 0x14A) % 2 == 0 then (c as int + 1) as char
    else if c == '\U{178}' then (c as int - 121) as char
    else if '\U{179}' <= c <= '\U{17D}' && (c as int - 0x179) % 2 == 0 then (c as int + 1) as char
    else if c == '\U{181}' then (c as int + 210) as char
    else if '\U{182}' <= c <= '\U{184}' && (c as int - 0x182) % 2 == 0 then (c as int + 1) as char
    else if c == '\U{186}' then (c as int + 206) as char
    else if c == '\U{187}' then (c as int + 1) as char
    else if '\U{189}' <= c <= '\U{18A}' then (c as int + 205) as char
    else if c == '\U{18B}' then (c as int + 1) as char
    else if c == '\U{18E}' then (c as int + 79) as char
    else if c == '\U{18F}' then (c as int + 202) as char
    else if c == '\U{190}' then (c as int + 203) as char
    else if c == '\U{191}' then (c as int + 1) as char
    else if c == '\U{193}' then (c as int + 205) as char
    else if c == '\U{194}' then (c as int + 207) as char
    else LowerPart2(c)
  }

  /** Runs from U+0196 to U+01C5, then the later ones. */
  function LowerPart2(c: char): (r: char)
    requires c >= '\U{80}'
    ensures !('A' <= r <= 'Z')
    ensures IsJsWhitespace(c) ==> r == c
  {
    if c == '\U{196}' then (c as int + 211) as char
    else if c == '\U{197}' then (c as int + 209) as char
    else if c == '\U{198}' then (c as int + 1) as char
    else if c == '\U{19C}' then (c as int + 211) as char
    else if c == '\U{19D}' then (c as int + 213) as char
    else if c == '\U{19F}' then (c as int + 214) as char
    else if '\U{1A0}' <= c <= '\U{1A4}' && (c as int - 0x1A0) % 2 == 0 then (c as int + 1) as char
    else if c == '\U{1A6}' then (c as int + 218) as char
    else if c == '\U{1A7}' then (c as int + 1) as char
    else if c == '\U{1A9}' then (c as int + 218) as char
    else if c == '\U{1AC}' then (c as int + 1) as char
    else if c == '\U{1AE}' then (c as int + 218) as char
    else if c == '\U{1AF}' then (c as int + 1) as char
    else if '\U{1B1}' <= c <= '\U{1B2}' then (c as int + 217) as char
    else if '\U{1B3}' <= c <= '\U{1B5}' && (c as int - 0x1B3) % 2 == 0 then (c as int + 1) as char
    else if c == '\U{1B7}' then (c as int + 219) as char
    else if c == '\U{1B8}' then (c as int + 1) as char
    else if c == '\U{1BC}' then (c as int + 1) as char
    else if c == '\U{1C4}' then (c as int + 2) as char
    else if c == '\U{1C5}' then (c as int + 1) as char
    else LowerPart3(c)
  }

  /** Runs from U+01C7 to U+0245, then the later ones. */
  function LowerPart3(c: char): (r: char)
    requires c >= '\U{80}'
    ensures !('A' <= r <= 'Z')
    ensures IsJsWhitespace(c) ==> r == c
  {
    if c == '\U{1C7}' then (c as int + 2) as char
    else if c == '\U{1C8}' then (c as int + 1) as char
    else if c == '\U{1CA}' then (c as int + 2) as char
    else if '\U{1CB}' <= c <= '\U{1DB}' && (c as int - 0x1CB) % 2 == 0 then (c as int + 1) as char
    else if '\U{1DE}' <= c <= '\U{1EE}' && (c as int - 0x1DE) % 2 == 0 then (c as int + 1) as char
    else if c == '\U{1F1}' then (c as int + 2) as char
    else if '\U{1F2}' <= c <= '\U{1F4}' && (c as int - 0x1F2) % 2 == 0 then (c as int + 1) as char
    else if c == '\U{1F6}' then (c as int - 97) as char
    else if c == '\U{1F7}' then (c as int - 56) as char
    else if '\U{1F8}' <= c <= '\U{21E}' && (c as int - 0x1F8) % 2 == 0 then (c as int + 1) as char
    else if c == '\U{220}' then (c as int - 130) as char
    else if '\U{222}' <= c <= '\U{232}' && (c as int - 0x222) % 2 == 0 then (c as int + 1) as char
    else if c == '\U{23A}' then (c as int + 10795) as char
    else if c == '\U{23B}' then (c as int + 1) as char
    else if c == '\U{23D}' then (c as int - 163) as char
    else if c == '\U{23E}' then (c as int + 10792) as char
    else if c == '\U{241}' then (c as int + 1) as char
    else if c == '\U{243}' then (c as int - 195) as char
    else if c == '\U{244}' then (c as int + 69) as char
    else if c == '\U{245}' then (c as int + 71) as char
    else LowerPart4(c)
  }

  /** Runs from U+0246 to U+0480, then the later ones. */
  function LowerPart4(c: char): (r: char)
    requires c >= '\U{80}'
    ensures !('A' <= r <= 'Z')
    ensures IsJsWhitespace(c) ==> r == c
  {
    if '\U{246}' <= c <= '\U{24E}' && (c as int - 0x246) % 2 == 0 then (c as int + 1) as char
    else if '\U{370}' <= c <= '\U{372}' && (c as int - 0x370) % 2 == 0 then (c as int + 1) as char
    else if c == '\U{376}' then (c as int + 1) as char
    else if c == '\U{37F}' then (c as int + 116) as char
    else if c == '\U{386}' then (c as int + 38) as char
    else if '\U{388}' <= c <= '\U{38A}' then (c as int + 37) as char
    else if c == '\U{38C}' then (c as int + 64) as char
    else if '\U{38E}' <= c <= '\U{38F}' then (c as int + 63) as char
    else if '\U{391}' <= c <= '\U{3A1}' then (c as int + 32) as char
    else if '\U{3A3}' <= c <= '\U{3AB}' then (c as int + 32) as char
    else if c == '\U{3CF}' then (c as int + 8) as char
    else if '\U{3D8}' <= c <= '\U{3EE}' && (c as int - 0x3D8) % 2 == 0 then (c as int + 1) as char
    else if c == '\U{3F4}' then (c as int - 60) as char
    else if c == '\U{3F7}' then (c as int + 1) as char
    else if c == '\U{3F9}' then (c as int - 7) as char
    else if c == '\U{3FA}' then (c as int + 1) as char
    else if '\U{3FD}' <= c <= '\U{3FF}' then (c as int - 130) as char
    else if '\U{400}' <= c <= '\U{40F}' then (c as int + 80) as char
    else if '\U{410}' <= c <= '\U{42F}' then (c as int + 32) as char
    else if '\U{460}' <= c <= '\U{480}' && (c as int - 0x460) % 2 == 0 then (c as int + 1) as char
    else LowerPart5(c)
  }

  /** Runs from U+048A to U+10CD, then the later ones. */
  function LowerPart5(c: char): (r: char)
    requires c >= '\U{80}'
    ensures !('A' <= r <= 'Z')
    ensures IsJsWhitespace(c) ==> r == c
  {
    if '\U{48A}' <= c <= '\U{4BE}' && (c as int - 0x48A) % 2 == 0 then (c as int + 1) as char
    else if c == '\U{4C0}' then (c as int + 15) as char
    else if '\U{4C1}' <= c <= '\U{4CD}' && (c as int - 0x4C1) % 2 == 0 then (c as int + 1) as char
    else if '\U{4D0}' <= c <= '\U{52E}' && (c as int - 0x4D0) % 2 == 0 then (c as int + 1) as char
    else if '\U{531}' <= c <= '\U{556}' then (c as int + 48) as char
    else if '\U{10A0}' <= c <= '\U{10C5}' then (c as int + 7264) as char
    else if c == '\U{10C7}' then (c as int + 7264) as char
    else if c == '\U{10CD}' then (c as int + 7264) as char
    else LowerPart6(c)
  }

  /** Runs from U+13A0 to U+1F4D, then the later ones. */
  function LowerPart6(c: char): (r: char)
    requires c >= '\U{80}'
    ensures !('A' <= r <= 'Z')
    ensures IsJsWhitespace(c) ==> r == c
  {
    if '\U{13A0}' <= c <= '\U{13EF}' then (c as int + 38864) as char
    else if '\U{13F0}' <= c <= '\U{13F5}' then (c as int + 8) as char
    else if '\U{1C90}' <= c <= '\U{1CBA}' then (c as int - 3008) as char
    else if '\U{1CBD}' <= c <= '\U{1CBF}' then (c as int - 3008) as char
    else if '\U{1E00}' <= c <= '\U{1E94}' && (c as int - 0x1E00) % 2 == 0 then (c as int + 1) as char
    else if c == '\U{1E9E}' then (c as int - 7615) as char
    else if '\U{1EA0}' <= c <= '\U{1EFE}' && (c as int - 0x1EA0) % 2 == 0 then (c as int + 1) as char
    else if '\U{1F08}' <= c <= '\U{1F0F}' then (c as int - 8) as char
    else if '\U{1F18}' <= c <= '\U{1F1D}' then (c as int - 8) as char
    else if '\U{1F28}' <= c <= '\U{1F2F}' then (c as int - 8) as char
    else if '\U{1F38}' <= c <= '\U{1F3F}' then (c as int - 8) as char
    else if '\U{1F48}' <= c <= '\U{1F4D}' then (c as int - 8) as char
    else LowerPart7(c)
  }

  /** Runs from U+1F59 to U+212A, then the later ones. */
  function LowerPart7(c: char): (r: char)
    requires c >= '\U{80}'
    ensures !('A' <= r <= 'Z')
    ensures IsJsWhitespace(c) ==> r == c
  {
    if '\U{1F59}' <= c <= '\U{1F5F}' && (c as int - 0x1F59) % 2 == 0 then (c as int - 8) as char
    else if '\U{1F68}' <= c <= '\U{1F6F}' then (c as int - 8) as char
    else if '\U{1F88}' <= c <= '\U{1F8F}' then (c as int - 8) as char
    else if '\U{1F98}' <= c <= '\U{1F9F}' then (c as int - 8) as char
    else if '\U{1FA8}' <= c <= '\U{1FAF}' then (c as int - 8) as char
    else if '\U{1FB8}' <= c <= '\U{1FB9}' then (c as int - 8) as char
    else if '\U{1FBA}' <= c <= '\U{1FBB}' then (c as int - 74) as char
    else if c == '\U{1FBC}' then (c as int - 9) as char
    else if '\U{1FC8}' <= c <= '\U{1FCB}' then (c as int - 86) as char
    else if c == '\U{1FCC}' then (c as int - 9) as char
    else if '\U{1FD8}' <= c <= '\U{1FD9}' then (c as int - 8) as char
    else if '\U{1FDA}' <= c <= '\U{1FDB}' then (c as int - 100) as char
    else if '\U{1FE8}' <= c <= '\U{1FE9}' then (c as int - 8) as char
    else if '\U{1FEA}' <= c <= '\U{1FEB}' then (c as int - 112) as char
    else if c == '\U{1FEC}' then (c as int - 7) as char
    else if '\U{1FF8}' <= c <= '\U{1FF9}' then (c as int - 128) as char
    else if '\U{1FFA}' <= c <= '\U{1FFB}' then (c as int - 126) as char
    else if c == '\U{1FFC}' then (c as int - 9) as char
    else if c == '\U{2126}' then (c as int - 7517) as char
    else if c == '\U{212A}' then (c as int - 8383) as char
    else LowerPart8(c)
  }

  /** Runs from U+212B to U+2CED, then the later ones. */
  function LowerPart8(c: char): (r: char)
    requires c >= '\U{80}'
    ensures !('A' <= r <= 'Z')
    ensures IsJsWhitespace(c) ==> r == c
  {
    if c == '\U{212B}' then (c as int - 8262) as char
    else if c == '\U{2132}' then (c as int + 28) as char
    else if '\U{2160}' <= c <= '\U{216F}' then (c as int + 16) as char
    else if c == '\U{2183}' then (c as int + 1) as char
    else if '\U{24B6}' <= c <= '\U{24CF}' then (c as int + 26) as char
    else if '\U{2C00}' <= c <= '\U{2C2F}' then (c as int + 48) as char
    else if c == '\U{2C60}' then (c as int + 1) as char
    else if c == '\U{2C62}' then (c as int - 10743) as char
    else if c == '\U{2C63}' then (c as int - 3814) as char
    else if c == '\U{2C64}' then (c as int - 10727) as char
    else if '\U{2C67}' <= c <= '\U{2C6B}' && (c as int - 0x2C67) % 2 == 0 then (c as int + 1) as char
    else if c == '\U{2C6D}' then (c as int - 10780) as char
    else if c == '\U{2C6E}' then (c as int - 10749) as char
    else if c == '\U{2C6F}' then (c as int - 10783) as char
    else if c == '\U{2C70}' then (c as int - 10782) as char
    else if c == '\U{2C72}' then (c as int + 1) as char
    else if c == '\U{2C75}' then (c as int + 1) as char
    else if '\U{2C7E}' <= c <= '\U{2C7F}' then (c as int - 10815) as char
    else if '\U{2C80}' <= c <= '\U{2CE2}' && (c as int - 0x2C80) % 2 == 0 then (c as int + 1) as char
    else if '\U{2CEB}' <= c <= '\U{2CED}' && (c as int - 0x2CEB) % 2 == 0 then (c as int + 1) as char
    else LowerPart9(c)
  }

  /** Runs from U+2CF2 to U+A7B2, then the later ones. */
  function LowerPart9(c: char): (r: char)
    requires c >= '\U{80}'
    ensures !('A' <= r <= 'Z')
    ensures IsJsWhitespace(c) ==> r == c
  {
    if c == '\U{2CF2}' then (c as int + 1) as char
    else if '\U{A640}' <= c <= '\U{A66C}' && (c as int - 0xA640) % 2 == 0 then (c as int + 1) as char
    else if '\U{A680}' <= c <= '\U{A69A}' && (c as int - 0xA680) % 2 == 0 then (c as int + 1) as char
    else if '\U{A722}' <= c <= '\U{A72E}' && (c as int - 0xA722) % 2 == 0 then (c as int + 1) as char
    else if '\U{A732}' <= c <= '\U{A76E}' && (c as int - 0xA732) % 2 == 0 then (c as int + 1) as char
    else if '\U{A779}' <= c <= '\U{A77B}' && (c as int - 0xA779) % 2 == 0 then (c as int + 1) as char
    else if c == '\U{A77D}' then (c as int - 35332) as char
    else if '\U{A77E}' <= c <= '\U{A786}' && (c as int - 0xA77E) % 2 == 0 then (c as int + 1) as char
    else if c == '\U{A78B}' then (c as int + 1) as char
    else if c == '\U{A78D}' then (c as int - 42280) as char
    else if '\U{A790}' <= c <= '\U{A792}' && (c as int - 0xA790) % 2 == 0 then (c as int + 1) as char
    else if '\U{A796}' <= c <= '\U{A7A8}' && (c as int - 0xA796) % 2 == 0 then (c as int + 1) as char
    else if c == '\U{A7AA}' then (c as int - 42308) as char
    else if c == '\U{A7AB}' then (c as int - 42319) as char
    else if c == '\U{A7AC}' then (c as int - 42315) as char
    else if c == '\U{A7AD}' then (c as int - 42305) as char
    else if c == '\U{A7AE}' then (c as int - 42308) as char
    else if c == '\U{A7B0}' then (c as int - 42258) as char
    else if c == '\U{A7B1}' then (c as int - 42282) as char
    else if c == '\U{A7B2}' then (c as int - 42261) as char
    else LowerPart10(c)
  }

  /** Runs from U+A7B3 to U+1E921, then the later ones. */
  function LowerPart10(c: char): (r: char)
    requires c >= '\U{80}'
    ensures !('A' <= r <= 'Z')
    ensures IsJsWhitespace(c) ==> r == c
  {
    if c == '\U{A7B3}' then (c as int + 928) as char
    else if '\U{A7B4}' <= c <= '\U{A7C2}' && (c as int - 0xA7B4) % 2 == 0 then (c as int + 1) as char
    else if c == '\U{A7C4}' then (c as int - 48) as char
    else if c == '\U{A7C5}' then (c as int - 42307) as char
    else if c == '\U{A7C6}' then (c as int - 35384) as char
    else if '\U{A7C7}' <= c <= '\U{A7C9}' && (c as int - 0xA7C7) % 2 == 0 then (c as int + 1) as char
    else if c == '\U{A7D0}' then (c as int + 1) as char
    else if '\U{A7D6}' <= c <= '\U{A7D8}' && (c as int - 0xA7D6) % 2 == 0 then (c as int + 1) as char
    else if c == '\U{A7F5}' then (c as int + 1) as char
    else if '\U{FF21}' <= c <= '\U{FF3A}' then (c as int + 32) as char
    else if '\U{10400}' <= c <= '\U{10427}' then (c as int + 40) as char
    else if '\U{104B0}' <= c <= '\U{104D3}' then (c as int + 40) as char
    else if '\U{10570}' <= c <= '\U{1057A}' then (c as int + 39) as char
    else if '\U{1057C}' <= c <= '\U{1058A}' then (c as int + 39) as char
    else if '\U{1058C}' <= c <= '\U{10592}' then (c as int + 39) as char
    else if '\U{10594}' <= c <= '\U{10595}' then (c as int + 39) as char
    else if '\U{10C80}' <= c <= '\U{10CB2}' then (c as int + 64) as char
    else if '\U{118A0}' <= c <= '\U{118BF}' then (c as int + 32) as char
    else if '\U{16E40}' <= c <= '\U{16E5F}' then (c as int + 32) as char
    else if '\U{1E900}' <= c <= '\U{1E921}' then (c as int + 34) as char
    else c
  }
}
