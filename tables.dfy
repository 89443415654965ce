/**
 * The seven static tables of FontCharmaps.cpp. Each is written down as its glyph
 * sheet, one row of cells per line of the C initialiser, and the C array itself
 * is that sheet read row after row followed by the terminator.
 */
module CharmapTables {

  import opened Charmap

  /** map_ascii: US-ASCII, control codes skipped. */
  const AsciiSheet: seq<seq<int>> := [
    [Skip, Skip, Skip, Skip, Skip, Skip, Skip, Skip, Skip, Skip, Skip, Skip, Skip, Skip, Skip, Skip],
    [Skip, Skip, Skip, Skip, Skip, Skip, Skip, Skip, Skip, Skip, Skip, Skip, Skip, Skip, Skip, Skip],
    [0x0020, 0x0021, 0x0022, 0x0023, 0x0024, 0x0025, 0x0026, 0x0027, 0x0028, 0x0029, 0x002A, 0x002B, 0x002C, 0x002D, 0x002E, 0x002F],
    [0x0030, 0x0031, 0x0032, 0x0033, 0x0034, 0x0035, 0x0036, 0x0037, 0x0038, 0x0039, 0x003A, 0x003B, 0x003C, 0x003D, 0x003E, 0x003F],
    [0x0040, 0x0041, 0x0042, 0x0043, 0x0044, 0x0045, 0x0046, 0x0047, 0x0048, 0x0049, 0x004A, 0x004B, 0x004C, 0x004D, 0x004E, 0x004F],
    [0x0050, 0x0051, 0x0052, 0x0053, 0x0054, 0x0055, 0x0056, 0x0057, 0x0058, 0x0059, 0x005A, 0x005B, 0x005C, 0x005D, 0x005E, 0x005F],
    [0x0060, 0x0061, 0x0062, 0x0063, 0x0064, 0x0065, 0x0066, 0x0067, 0x0068, 0x0069, 0x006A, 0x006B, 0x006C, 0x006D, 0x006E, 0x006F],
    [0x0070, 0x0071, 0x0072, 0x0073, 0x0074, 0x0075, 0x0076, 0x0077, 0x0078, 0x0079, 0x007A, 0x007B, 0x007C, 0x007D, 0x007E, Skip]
  ]

  const MapAscii: Table := Flatten(AsciiSheet) + [Terminator]

  /** map_iso_8859_1: Latin-1, both control ranges skipped. */
  const Iso8859_1Sheet: seq<seq<int>> := [
    [Skip, Skip, Skip, Skip, Skip, Skip, Skip, Skip, Skip, Skip, Skip, Skip, Skip, Skip, Skip, Skip],
    [Skip, Skip, Skip, Skip, Skip, Skip, Skip, Skip, Skip, Skip, Skip, Skip, Skip, Skip, Skip, Skip],
    [0x0020, 0x0021, 0x0022, 0x0023, 0x0024, 0x0025, 0x0026, 0x0027, 0x0028, 0x0029, 0x002a, 0x002b, 0x002c, 0x002d, 0x002e, 0x002f],
    [0x0030, 0x0031, 0x0032, 0x0033, 0x0034, 0x0035, 0x0036, 0x0037, 0x0038, 0x0039, 0x003a, 0x003b, 0x003c, 0x003d, 0x003e, 0x003f],
    [0x0040, 0x0041, 0x0042, 0x0043, 0x0044, 0x0045, 0x0046, 0x0047, 0x0048, 0x0049, 0x004a, 0x004b, 0x004c, 0x004d, 0x004e, 0x004f],
    [0x0050, 0x0051, 0x0052, 0x0053, 0x0054, 0x0055, 0x0056, 0x0057, 0x0058, 0x0059, 0x005a, 0x005b, 0x005c, 0x005d, 0x005e, 0x005f],
    [0x0060, 0x0061, 0x0062, 0x0063, 0x0064, 0x0065, 0x0066, 0x0067, 0x0068, 0x0069, 0x006a, 0x006b, 0x006c, 0x006d, 0x006e, 0x006f],
    [0x0070, 0x0071, 0x0072, 0x0073, 0x0074, 0x0075, 0x0076, 0x0077, 0x0078, 0x0079, 0x007a, 0x007b, 0x007c, 0x007d, 0x007e, 0x007f],
    [Skip, Skip, Skip, Skip, Skip, Skip, Skip, Skip, Skip, Skip, Skip, Skip, Skip, Skip, Skip, Skip],
    [Skip, Skip, Skip, Skip, Skip, Skip, Skip, Skip, Skip, Skip, Skip, Skip, Skip, Skip, Skip, Skip],
    [0x00a0, 0x00a1, 0x00a2, 0x00a3, 0x00a4, 0x00a5, 0x00a6, 0x00a7, 0x00a8, 0x00a9, 0x00aa, 0x00ab, 0x00ac, 0x00ad, 0x00ae, 0x00af],
    [0x00b0, 0x00b1, 0x00b2, 0x00b3, 0x00b4, 0x00b5, 0x00b6, 0x00b7, 0x00b8, 0x00b9, 0x00ba, 0x00bb, 0x00bc, 0x00bd, 0x00be, 0x00bf],
    [0x00c0, 0x00c1, 0x00c2, 0x00c3, 0x00c4, 0x00c5, 0x00c6, 0x00c7, 0x00c8, 0x00c9, 0x00ca, 0x00cb, 0x00cc, 0x00cd, 0x00ce, 0x00cf],
    [0x00d0, 0x00d1, 0x00d2, 0x00d3, 0x00d4, 0x00d5, 0x00d6, 0x00d7, 0x00d8, 0x00d9, 0x00da, 0x00db, 0x00dc, 0x00dd, 0x00de, 0x00df],
    [0x00e0, 0x00e1, 0x00e2, 0x00e3, 0x00e4, 0x00e5, 0x00e6, 0x00e7, 0x00e8, 0x00e9, 0x00ea, 0x00eb, 0x00ec, 0x00ed, 0x00ee, 0x00ef],
    [0x00f0, 0x00f1, 0x00f2, 0x00f3, 0x00f4, 0x00f5, 0x00f6, 0x00f7, 0x00f8, 0x00f9, 0x00fa, 0x00fb, 0x00fc, 0x00fd, 0x00fe, 0x00ff]
  ]

  const MapIso8859_1: Table := Flatten(Iso8859_1Sheet) + [Terminator]

  /** map_cp1252: Windows code page 1252. */
  const Cp1252Sheet: seq<seq<int>> := [
    [Skip, Skip, Skip, Skip, Skip, Skip, Skip, Skip, Skip, Skip, Skip, Skip, Skip, Skip, Skip, Skip],
    [Skip, Skip, Skip, Skip, Skip, Skip, Skip, Skip, Skip, Skip, Skip, Skip, Skip, Skip, Skip, Skip],
    [0x0020, 0x0021, 0x0022, 0x0023, 0x0024, 0x0025, 0x0026, 0x0027, 0x0028, 0x0029, 0x002A, 0x002B, 0x002C, 0x002D, 0x002E, 0x002F],
    [0x0030, 0x0031, 0x0032, 0x0033, 0x0034, 0x0035, 0x0036, 0x0037, 0x0038, 0x0039, 0x003A, 0x003B, 0x003C, 0x003D, 0x003E, 0x003F],
    [0x0040, 0x0041, 0x0042, 0x0043, 0x0044, 0x0045, 0x0046, 0x0047, 0x0048, 0x0049, 0x004A, 0x004B, 0x004C, 0x004D, 0x004E, 0x004F],
    [0x0050, 0x0051, 0x0052, 0x0053, 0x0054, 0x0055, 0x0056, 0x0057, 0x0058, 0x0059, 0x005A, 0x005B, 0x005C, 0x005D, 0x005E, 0x005F],
    [0x0060, 0x0061, 0x0062, 0x0063, 0x0064, 0x0065, 0x0066, 0x0067, 0x0068, 0x0069, 0x006A, 0x006B, 0x006C, 0x006D, 0x006E, 0x006F],
    [0x0070, 0x0071, 0x0072, 0x0073, 0x0074, 0x0075, 0x0076, 0x0077, 0x0078, 0x0079, 0x007A, 0x007B, 0x007C, 0x007D, 0x007E, Skip],
    [0x20AC, Skip, 0x201A, 0x0192, 0x201E, 0x2026, 0x2020, 0x2021, 0x02C6, 0x2030, 0x0160, 0x2039, 0x0152, Skip, 0x017D, Skip],
    [Skip, 0x2018, 0x2019, 0x201C, 0x201D, 0x2022, 0x2013, 0x2014, 0x02DC, 0x2122, 0x0161, 0x203A, 0x0153, 0x017E, Skip, 0x0178],
    [0x00A0, 0x00A1, 0x00A2, 0x00A3, 0x00A4, 0x00A5, 0x00A6, 0x00A7, 0x00A8, 0x00A9, 0x00AA, 0x00AB, 0x00AC, 0x00AD, 0x00AE, 0x00AF],
    [0x00B0, 0x00B1, 0x00B2, 0x00B3, 0x00B4, 0x00B5, 0x00B6, 0x00B7, 0x00B8, 0x00B9, 0x00BA, 0x00BB, 0x00BC, 0x00BD, 0x00BE, 0x00BF],
    [0x00C0, 0x00C1, 0x00C2, 0x00C3, 0x00C4, 0x00C5, 0x00C6, 0x00C7, 0x00C8, 0x00C9, 0x00CA, 0x00CB, 0x00CC, 0x00CD, 0x00CE, 0x00CF],
    [0x00D0, 0x00D1, 0x00D2, 0x00D3, 0x00D4, 0x00D5, 0x00D6, 0x00D7, 0x00D8, 0x00D9, 0x00DA, 0x00DB, 0x00DC, 0x00DD, 0x00DE, 0x00DF],
    [0x00E0, 0x00E1, 0x00E2, 0x00E3, 0x00E4, 0x00E5, 0x00E6, 0x00E7, 0x00E8, 0x00E9, 0x00EA, 0x00EB, 0x00EC, 0x00ED, 0x00EE, 0x00EF],
    [0x00F0, 0x00F1, 0x00F2, 0x00F3, 0x00F4, 0x00F5, 0x00F6, 0x00F7, 0x00F8, 0x00F9, 0x00FA, 0x00FB, 0x00FC, 0x00FD, 0x00FE, 0x00FF]
  ]

  const MapCp1252: Table := Flatten(Cp1252Sheet) + [Terminator]

  /** map_iso_8859_2: control codes skipped, then the upper half of ISO/IEC 8859-2. */
  const Iso8859_2Sheet: seq<seq<int>> := [
    [Skip, Skip, Skip, Skip, Skip, Skip, Skip, Skip, Skip, Skip, Skip, Skip, Skip, Skip, Skip, Skip],
    [Skip, Skip, Skip, Skip, Skip, Skip, Skip, Skip, Skip, Skip, Skip, Skip, Skip, Skip, Skip, Skip],
    [0x00A0, 0x0104, 0x02D8, 0x0141, 0x00A4, 0x013D, 0x015A, 0x00A7, 0x00A8, 0x0160, 0x015E, 0x0164, 0x0179, 0x00AD, 0x017D, 0x017B],
    [0x00B0, 0x0105, 0x02DB, 0x0142, 0x00B4, 0x013E, 0x015B, 0x02C7, 0x00B8, 0x0161, 0x015F, 0x0165, 0x017A, 0x02DD, 0x017E, 0x017C],
    [0x0154, 0x00C1, 0x00C2, 0x0102, 0x00C4, 0x0139, 0x0106, 0x00C7, 0x010C, 0x00C9, 0x0118, 0x00CB, 0x011A, 0x00CD, 0x00CE, 0x010E],
    [0x0110, 0x0143, 0x0147, 0x00D3, 0x00D4, 0x0150, 0x00D6, 0x00D7, 0x0158, 0x016E, 0x00DA, 0x0170, 0x00DC, 0x00DD, 0x0162, 0x00DF],
    [0x0155, 0x00E1, 0x00E2, 0x0103, 0x00E4, 0x013A, 0x0107, 0x00E7, 0x010D, 0x00E9, 0x0119, 0x00EB, 0x011B, 0x00ED, 0x00EE, 0x010F],
    [0x0111, 0x0144, 0x0148, 0x00F3, 0x00F4, 0x0151, 0x00F6, 0x00F7, 0x0159, 0x016F, 0x00FA, 0x0171, 0x00FC, 0x00FD, 0x0163, 0x02D9]
  ]

  const MapIso8859_2: Table := Flatten(Iso8859_2Sheet) + [Terminator]

  /** map_basic_japanese: CJK symbols and punctuation, Hiragana, Katakana. */
  const BasicJapaneseSheet: seq<seq<int>> := [
    [0x3000, 0x3001, 0x3002, 0x3003, 0x3004, 0x3005, 0x3006, 0x3007, 0x3008, 0x3009, 0x300a, 0x300b, 0x300c, 0x300d, 0x300e, 0x300f],
    [0x3010, 0x3011, 0x3012, 0x3013, 0x3014, 0x3015, 0x3016, 0x3017, 0x3018, 0x3019, 0x301a, 0x301b, 0x301c, 0x301d, 0x301e, 0x301f],
    [0x3020, 0x3021, 0x3022, 0x3023, 0x3024, 0x3025, 0x3026, 0x3027, 0x3028, 0x3029, 0x302a, 0x302b, 0x302c, 0x302d, 0x302e, 0x302f],
    [0x3030, 0x3031, 0x3032, 0x3033, 0x3034, 0x3035, 0x3036, 0x3037, 0x3038, 0x3039, 0x303a, 0x303b, 0x303c, 0x303d, 0x303e, 0x303f],
    [0x3040, 0x3041, 0x3042, 0x3043, 0x3044, 0x3045, 0x3046, 0x3047, 0x3048, 0x3049, 0x304a, 0x304b, 0x304c, 0x304d, 0x304e, 0x304f],
    [0x3050, 0x3051, 0x3052, 0x3053, 0x3054, 0x3055, 0x3056, 0x3057, 0x3058, 0x3059, 0x305a, 0x305b, 0x305c, 0x305d, 0x305e, 0x305f],
    [0x3060, 0x3061, 0x3062, 0x3063, 0x3064, 0x3065, 0x3066, 0x3067, 0x3068, 0x3069, 0x306a, 0x306b, 0x306c, 0x306d, 0x306e, 0x306f],
    [0x3070, 0x3071, 0x3072, 0x3073, 0x3074, 0x3075, 0x3076, 0x3077, 0x3078, 0x3079, 0x307a, 0x307b, 0x307c, 0x307d, 0x307e, 0x307f],
    [0x3080, 0x3081, 0x3082, 0x3083, 0x3084, 0x3085, 0x3086, 0x3087, 0x3088, 0x3089, 0x308a, 0x308b, 0x308c, 0x308d, 0x308e, 0x308f],
    [0x3090, 0x3091, 0x3092, 0x3093, 0x3094, 0x3095, 0x3096, 0x3097, 0x3098, 0x3099, 0x309a, 0x309b, 0x309c, 0x309d, 0x309e, 0x309f],
    [0x30a0, 0x30a1, 0x30a2, 0x30a3, 0x30a4, 0x30a5, 0x30a6, 0x30a7, 0x30a8, 0x30a9, 0x30aa, 0x30ab, 0x30ac, 0x30ad, 0x30ae, 0x30af],
    [0x30b0, 0x30b1, 0x30b2, 0x30b3, 0x30b4, 0x30b5, 0x30b6, 0x30b7, 0x30b8, 0x30b9, 0x30ba, 0x30bb, 0x30bc, 0x30bd, 0x30be, 0x30bf],
    [0x30c0, 0x30c1, 0x30c2, 0x30c3, 0x30c4, 0x30c5, 0x30c6, 0x30c7, 0x30c8, 0x30c9, 0x30ca, 0x30cb, 0x30cc, 0x30cd, 0x30ce, 0x30cf],
    [0x30d0, 0x30d1, 0x30d2, 0x30d3, 0x30d4, 0x30d5, 0x30d6, 0x30d7, 0x30d8, 0x30d9, 0x30da, 0x30db, 0x30dc, 0x30dd, 0x30de, 0x30df],
    [0x30e0, 0x30e1, 0x30e2, 0x30e3, 0x30e4, 0x30e5, 0x30e6, 0x30e7, 0x30e8, 0x30e9, 0x30ea, 0x30eb, 0x30ec, 0x30ed, 0x30ee, 0x30ef],
    [0x30f0, 0x30f1, 0x30f2, 0x30f3, 0x30f4, 0x30f5, 0x30f6, 0x30f7, 0x30f8, 0x30f9, 0x30fa, 0x30fb, 0x30fc, 0x30fd, 0x30fe, 0x30ff]
  ]

  const MapBasicJapanese: Table := Flatten(BasicJapaneseSheet) + [Terminator]

  /** map_korean_jamo: the Hangul Jamo block, transposed. */
  const KoreanJamoSheet: seq<seq<int>> := [
    [0x1100, 0x1110, 0x1120, 0x1130, 0x1140, 0x1150, 0x1160, 0x1170, 0x1180, 0x1190, 0x11a0, 0x11b0, 0x11c0, 0x11d0, 0x11e0, 0x11f0],
    [0x1101, 0x1111, 0x1121, 0x1131, 0x1141, 0x1151, 0x1161, 0x1171, 0x1181, 0x1191, 0x11a1, 0x11b1, 0x11c1, 0x11d1, 0x11e1, 0x11f1],
    [0x1102, 0x1112, 0x1122, 0x1132, 0x1142, 0x1152, 0x1162, 0x1172, 0x1182, 0x1192, 0x11a2, 0x11b2, 0x11c2, 0x11d2, 0x11e2, 0x11f2],
    [0x1103, 0x1113, 0x1123, 0x1133, 0x1143, 0x1153, 0x1163, 0x1173, 0x1183, 0x1193, 0x11a3, 0x11b3, 0x11c3, 0x11d3, 0x11e3, 0x11f3],
    [0x1104, 0x1114, 0x1124, 0x1134, 0x1144, 0x1154, 0x1164, 0x1174, 0x1184, 0x1194, 0x11a4, 0x11b4, 0x11c4, 0x11d4, 0x11e4, 0x11f4],
    [0x1105, 0x1115, 0x1125, 0x1135, 0x1145, 0x1155, 0x1165, 0x1175, 0x1185, 0x1195, 0x11a5, 0x11b5, 0x11c5, 0x11d5, 0x11e5, 0x11f5],
    [0x1106, 0x1116, 0x1126, 0x1136, 0x1146, 0x1156, 0x1166, 0x1176, 0x1186, 0x1196, 0x11a6, 0x11b6, 0x11c6, 0x11d6, 0x11e6, 0x11f6],
    [0x1107, 0x1117, 0x1127, 0x1137, 0x1147, 0x1157, 0x1167, 0x1177, 0x1187, 0x1197, 0x11a7, 0x11b7, 0x11c7, 0x11d7, 0x11e7, 0x11f7],
    [0x1108, 0x1118, 0x1128, 0x1138, 0x1148, 0x1158, 0x1168, 0x1178, 0x1188, 0x1198, 0x11a8, 0x11b8, 0x11c8, 0x11d8, 0x11e8, 0x11f8],
    [0x1109, 0x1119, 0x1129, 0x1139, 0x1149, 0x1159, 0x1169, 0x1179, 0x1189, 0x1199, 0x11a9, 0x11b9, 0x11c9, 0x11d9, 0x11e9, 0x11f9],
    [0x110a, 0x111a, 0x112a, 0x113a, 0x114a, 0x115a, 0x116a, 0x117a, 0x118a, 0x119a, 0x11aa, 0x11ba, 0x11ca, 0x11da, 0x11ea, 0x11fa],
    [0x110b, 0x111b, 0x112b, 0x113b, 0x114b, 0x115b, 0x116b, 0x117b, 0x118b, 0x119b, 0x11ab, 0x11bb, 0x11cb, 0x11db, 0x11eb, 0x11fb],
    [0x110c, 0x111c, 0x112c, 0x113c, 0x114c, 0x115c, 0x116c, 0x117c, 0x118c, 0x119c, 0x11ac, 0x11bc, 0x11cc, 0x11dc, 0x11ec, 0x11fc],
    [0x110d, 0x111d, 0x112d, 0x113d, 0x114d, 0x115d, 0x116d, 0x117d, 0x118d, 0x119d, 0x11ad, 0x11bd, 0x11cd, 0x11dd, 0x11ed, 0x11fd],
    [0x110e, 0x111e, 0x112e, 0x113e, 0x114e, 0x115e, 0x116e, 0x117e, 0x118e, 0x119e, 0x11ae, 0x11be, 0x11ce, 0x11de, 0x11ee, 0x11fe],
    [0x110f, 0x111f, 0x112f, 0x113f, 0x114f, 0x115f, 0x116f, 0x117f, 0x118f, 0x119f, 0x11af, 0x11bf, 0x11cf, 0x11df, 0x11ef, 0x11ff]
  ]

  const MapKoreanJamo: Table := Flatten(KoreanJamoSheet) + [Terminator]

  /** map_numbers: a sheet of five columns and three rows. */
  const NumbersSheet: seq<seq<int>> := [
    [0x0030, 0x0031, 0x0032, 0x0033, 0x0034],
    [0x0035, 0x0036, 0x0037, 0x0038, 0x0039],
    [0x0025, 0x002E, 0x0020, 0x003A, 0x0078]
  ]

  const MapNumbers: Table := Flatten(NumbersSheet) + [Terminator]

  // ----- Reference layouts, one per table -----

  /** US-ASCII: printable characters map to themselves, control codes and DEL are skipped. */
  function AsciiSlot(i: int): int {
    if 0x20 <= i <= 0x7E then i else Skip
  }

  /** Latin-1: the identity, except that both control ranges (C0 and C1) are skipped. */
  function Iso8859_1Slot(i: int): int {
    if i < 0x20 || 0x80 <= i < 0xA0 then Skip else i
  }

  /** The five slots of the 0x80-0x9F range that map_cp1252 leaves without a glyph. */
  predicate Cp1252Skipped(i: int) {
    i == 0x81 || i == 0x8D || i == 0x8F || i == 0x90 || i == 0x9E
  }

  /** A mapped code point that no Latin-1 slot can hold. */
  predicate OutsideLatin1(v: int) {
    Mapped(v) && v > 0xFF
  }

  /**
   * The ISO/IEC 8859-2 code point of byte b, for b in 0xA0-0xFF, written as the
   * bytes at which ISO/IEC 8859-2 departs from ISO/IEC 8859-1; every other byte
   * keeps its Latin-1 code point.
   */
  function Iso8859_2Code(b: int): int {
    match b
    case 0xA1 => 0x0104  case 0xA2 => 0x02D8  case 0xA3 => 0x0141  case 0xA5 => 0x013D  case 0xA6 => 0x015A  case 0xA9 => 0x0160
    case 0xAA => 0x015E  case 0xAB => 0x0164  case 0xAC => 0x0179  case 0xAE => 0x017D  case 0xAF => 0x017B
    case 0xB1 => 0x0105  case 0xB2 => 0x02DB  case 0xB3 => 0x0142  case 0xB5 => 0x013E  case 0xB6 => 0x015B  case 0xB7 => 0x02C7
    case 0xB9 => 0x0161  case 0xBA => 0x015F  case 0xBB => 0x0165  case 0xBC => 0x017A  case 0xBD => 0x02DD  case 0xBE => 0x017E
    case 0xBF => 0x017C
    case 0xC0 => 0x0154  case 0xC3 => 0x0102  case 0xC5 => 0x0139  case 0xC6 => 0x0106  case 0xC8 => 0x010C  case 0xCA => 0x0118
    case 0xCC => 0x011A  case 0xCF => 0x010E
    case 0xD0 => 0x0110  case 0xD1 => 0x0143  case 0xD2 => 0x0147  case 0xD5 => 0x0150  case 0xD8 => 0x0158  case 0xD9 => 0x016E
    case 0xDB => 0x0170  case 0xDE => 0x0162
    case 0xE0 => 0x0155  case 0xE3 => 0x0103  case 0xE5 => 0x013A  case 0xE6 => 0x0107  case 0xE8 => 0x010D  case 0xEA => 0x0119
    case 0xEC => 0x011B  case 0xEF => 0x010F
    case 0xF0 => 0x0111  case 0xF1 => 0x0144  case 0xF2 => 0x0148  case 0xF5 => 0x0151  case 0xF8 => 0x0159  case 0xF9 => 0x016F
    case 0xFB => 0x0171  case 0xFE => 0x0163  case 0xFF => 0x02D9
    case _ => b
  }

  /** map_iso_8859_2 puts byte i + 0x80 in slot i: slots 32-127 are bytes 0xA0-0xFF. */
  function Iso8859_2Slot(i: int): int {
    if i < 0x20 then Skip else Iso8859_2Code(i + 0x80)
  }

  /** Unicode block U+3000-U+30FF in order. */
  function BasicJapaneseSlot(i: int): int {
    0x3000 + i
  }

  /** The picture of the numbers sheet: three rows of five glyphs, "01234", "56789", "%. :x". */
  const NumbersPicture: string := "0123456789%. :x"

  function NumbersSlot(i: int): int {
    if 0 <= i < |NumbersPicture| then NumbersPicture[i] as int else Terminator
  }

  // ----- Sheet layouts, checked row by row -----

  lemma AsciiSheetLayout()
    ensures |AsciiSheet| == 8 && Uniform(AsciiSheet, 16)
    ensures forall r, c :: 0 <= r < 8 && 0 <= c < 16 ==> AsciiSheet[r][c] == AsciiSlot(16 * r + c)
  {
    assert forall c :: 0 <= c < 16 ==> AsciiSheet[0][c] == AsciiSlot(0 + c);
    assert forall c :: 0 <= c < 16 ==> AsciiSheet[1][c] == AsciiSlot(16 + c);
    assert forall c :: 0 <= c < 16 ==> AsciiSheet[2][c] == AsciiSlot(32 + c);
    assert forall c :: 0 <= c < 16 ==> AsciiSheet[3][c] == AsciiSlot(48 + c);
    assert forall c :: 0 <= c < 16 ==> AsciiSheet[4][c] == AsciiSlot(64 + c);
    assert forall c :: 0 <= c < 16 ==> AsciiSheet[5][c] == AsciiSlot(80 + c);
    assert forall c :: 0 <= c < 16 ==> AsciiSheet[6][c] == AsciiSlot(96 + c);
    assert forall c :: 0 <= c < 16 ==> AsciiSheet[7][c] == AsciiSlot(112 + c);
  }

  lemma Iso8859_1SheetRows0To7()
    ensures |Iso8859_1Sheet| == 16 && forall r :: 0 <= r < 8 ==> |Iso8859_1Sheet[r]| == 16
    ensures forall r, c :: 0 <= r < 8 && 0 <= c < 16 ==> Iso8859_1Sheet[r][c] == Iso8859_1Slot(16 * r + c)
  {
    assert forall c :: 0 <= c < 16 ==> Iso8859_1Sheet[0][c] == Iso8859_1Slot(0 + c);
    assert forall c :: 0 <= c < 16 ==> Iso8859_1Sheet[1][c] == Iso8859_1Slot(16 + c);
    assert forall c :: 0 <= c < 16 ==> Iso8859_1Sheet[2][c] == Iso8859_1Slot(32 + c);
    assert forall c :: 0 <= c < 16 ==> Iso8859_1Sheet[3][c] == Iso8859_1Slot(48 + c);
    assert forall c :: 0 <= c < 16 ==> Iso8859_1Sheet[4][c] == Iso8859_1Slot(64 + c);
    assert forall c :: 0 <= c < 16 ==> Iso8859_1Sheet[5][c] == Iso8859_1Slot(80 + c);
    assert forall c :: 0 <= c < 16 ==> Iso8859_1Sheet[6][c] == Iso8859_1Slot(96 + c);
    assert forall c :: 0 <= c < 16 ==> Iso8859_1Sheet[7][c] == Iso8859_1Slot(112 + c);
  }

  lemma Iso8859_1SheetRows8To15()
    ensures |Iso8859_1Sheet| == 16 && forall r :: 8 <= r < 16 ==> |Iso8859_1Sheet[r]| == 16
    ensures forall r, c :: 8 <= r < 16 && 0 <= c < 16 ==> Iso8859_1Sheet[r][c] == Iso8859_1Slot(16 * r + c)
  {
    assert forall c :: 0 <= c < 16 ==> Iso8859_1Sheet[8][c] == Iso8859_1Slot(128 + c);
    assert forall c :: 0 <= c < 16 ==> Iso8859_1Sheet[9][c] == Iso8859_1Slot(144 + c);
    assert forall c :: 0 <= c < 16 ==> Iso8859_1Sheet[10][c] == Iso8859_1Slot(160 + c);
    assert forall c :: 0 <= c < 16 ==> Iso8859_1Sheet[11][c] == Iso8859_1Slot(176 + c);
    assert forall c :: 0 <= c < 16 ==> Iso8859_1Sheet[12][c] == Iso8859_1Slot(192 + c);
    assert forall c :: 0 <= c < 16 ==> Iso8859_1Sheet[13][c] == Iso8859_1Slot(208 + c);
    assert forall c :: 0 <= c < 16 ==> Iso8859_1Sheet[14][c] == Iso8859_1Slot(224 + c);
    assert forall c :: 0 <= c < 16 ==> Iso8859_1Sheet[15][c] == Iso8859_1Slot(240 + c);
  }

  /** Every cell of the Latin-1 sheet holds its reference code point. */
  lemma Iso8859_1SheetLayout()
    ensures |Iso8859_1Sheet| == 16 && Uniform(Iso8859_1Sheet, 16)
    ensures forall r, c :: 0 <= r < 16 && 0 <= c < 16 ==> Iso8859_1Sheet[r][c] == Iso8859_1Slot(16 * r + c)
  {
    Iso8859_1SheetRows0To7();
    Iso8859_1SheetRows8To15();
  }

  lemma Cp1252SheetRows0To7()
    ensures |Cp1252Sheet| == 16 && forall r :: 0 <= r < 8 ==> |Cp1252Sheet[r]| == 16
    ensures forall r, c :: 0 <= r < 8 && 0 <= c < 16 ==> Cp1252Sheet[r][c] == AsciiSlot(16 * r + c)
  {
    assert forall c :: 0 <= c < 16 ==> Cp1252Sheet[0][c] == AsciiSlot(0 + c);
    assert forall c :: 0 <= c < 16 ==> Cp1252Sheet[1][c] == AsciiSlot(16 + c);
    assert forall c :: 0 <= c < 16 ==> Cp1252Sheet[2][c] == AsciiSlot(32 + c);
    assert forall c :: 0 <= c < 16 ==> Cp1252Sheet[3][c] == AsciiSlot(48 + c);
    assert forall c :: 0 <= c < 16 ==> Cp1252Sheet[4][c] == AsciiSlot(64 + c);
    assert forall c :: 0 <= c < 16 ==> Cp1252Sheet[5][c] == AsciiSlot(80 + c);
    assert forall c :: 0 <= c < 16 ==> Cp1252Sheet[6][c] == AsciiSlot(96 + c);
    assert forall c :: 0 <= c < 16 ==> Cp1252Sheet[7][c] == AsciiSlot(112 + c);
  }

  lemma Cp1252SheetRows8To15()
    ensures |Cp1252Sheet| == 16 && forall r :: 8 <= r < 16 ==> |Cp1252Sheet[r]| == 16
    ensures forall r, c :: 10 <= r < 16 && 0 <= c < 16 ==> Cp1252Sheet[r][c] == 16 * r + c
    ensures Cp1252Sheet[8][0] == 0x20AC
    ensures forall r, c :: 8 <= r < 10 && 0 <= c < 16 ==>
      (Cp1252Sheet[r][c] == Skip <==> Cp1252Skipped(16 * r + c))
    ensures forall r, c :: 8 <= r < 10 && 0 <= c < 16 ==>
      Cp1252Sheet[r][c] == Skip || OutsideLatin1(Cp1252Sheet[r][c])
  {
    assert forall c :: 0 <= c < 16 ==> Cp1252Sheet[10][c] == 160 + c;
    assert forall c :: 0 <= c < 16 ==> Cp1252Sheet[11][c] == 176 + c;
    assert forall c :: 0 <= c < 16 ==> Cp1252Sheet[12][c] == 192 + c;
    assert forall c :: 0 <= c < 16 ==> Cp1252Sheet[13][c] == 208 + c;
    assert forall c :: 0 <= c < 16 ==> Cp1252Sheet[14][c] == 224 + c;
    assert forall c :: 0 <= c < 16 ==> Cp1252Sheet[15][c] == 240 + c;
    assert forall c :: 0 <= c < 16 ==> (Cp1252Sheet[8][c] == Skip <==> Cp1252Skipped(128 + c));
    assert forall c :: 0 <= c < 16 ==> (Cp1252Sheet[9][c] == Skip <==> Cp1252Skipped(144 + c));
    assert forall c :: 0 <= c < 16 ==> (Cp1252Sheet[8][c] == Skip || OutsideLatin1(Cp1252Sheet[8][c]));
    assert forall c :: 0 <= c < 16 ==> (Cp1252Sheet[9][c] == Skip || OutsideLatin1(Cp1252Sheet[9][c]));
  }

  lemma Iso8859_2SheetRows0To3()
    ensures |Iso8859_2Sheet| == 8 && forall r :: 0 <= r < 4 ==> |Iso8859_2Sheet[r]| == 16
    ensures forall r, c :: 0 <= r < 4 && 0 <= c < 16 ==> Iso8859_2Sheet[r][c] == Iso8859_2Slot(16 * r + c)
  {
    assert forall c :: 0 <= c < 16 ==> Iso8859_2Sheet[0][c] == Iso8859_2Slot(0 + c);
    assert forall c :: 0 <= c < 16 ==> Iso8859_2Sheet[1][c] == Iso8859_2Slot(16 + c);
    assert forall c :: 0 <= c < 16 ==> Iso8859_2Sheet[2][c] == Iso8859_2Slot(32 + c);
    assert forall c :: 0 <= c < 16 ==> Iso8859_2Sheet[3][c] == Iso8859_2Slot(48 + c);
  }

  lemma Iso8859_2SheetRow4()
    ensures |Iso8859_2Sheet| == 8 && forall r :: 4 <= r < 5 ==> |Iso8859_2Sheet[r]| == 16
    ensures forall r, c :: 4 <= r < 5 && 0 <= c < 16 ==> Iso8859_2Sheet[r][c] == Iso8859_2Slot(16 * r + c)
  {
    assert forall c :: 0 <= c < 16 ==> Iso8859_2Sheet[4][c] == Iso8859_2Slot(64 + c);
  }

  lemma Iso8859_2SheetRow5()
    ensures |Iso8859_2Sheet| == 8 && forall r :: 5 <= r < 6 ==> |Iso8859_2Sheet[r]| == 16
    ensures forall r, c :: 5 <= r < 6 && 0 <= c < 16 ==> Iso8859_2Sheet[r][c] == Iso8859_2Slot(16 * r + c)
  {
    assert forall c :: 0 <= c < 16 ==> Iso8859_2Sheet[5][c] == Iso8859_2Slot(80 + c);
  }

  lemma Iso8859_2SheetRow6()
    ensures |Iso8859_2Sheet| == 8 && forall r :: 6 <= r < 7 ==> |Iso8859_2Sheet[r]| == 16
    ensures forall r, c :: 6 <= r < 7 && 0 <= c < 16 ==> Iso8859_2Sheet[r][c] == Iso8859_2Slot(16 * r + c)
  {
    assert forall c :: 0 <= c < 16 ==> Iso8859_2Sheet[6][c] == Iso8859_2Slot(96 + c);
  }

  lemma Iso8859_2SheetRow7()
    ensures |Iso8859_2Sheet| == 8 && forall r :: 7 <= r < 8 ==> |Iso8859_2Sheet[r]| == 16
    ensures forall r, c :: 7 <= r < 8 && 0 <= c < 16 ==> Iso8859_2Sheet[r][c] == Iso8859_2Slot(16 * r + c)
  {
    assert forall c :: 0 <= c < 16 ==> Iso8859_2Sheet[7][c] == Iso8859_2Slot(112 + c);
  }

  /** Every cell of the Latin-2 sheet holds its reference code point. */
  lemma Iso8859_2SheetLayout()
    ensures |Iso8859_2Sheet| == 8 && Uniform(Iso8859_2Sheet, 16)
    ensures forall r, c :: 0 <= r < 8 && 0 <= c < 16 ==> Iso8859_2Sheet[r][c] == Iso8859_2Slot(16 * r + c)
  {
    Iso8859_2SheetRows0To3();
    Iso8859_2SheetRow4();
    Iso8859_2SheetRow5();
    Iso8859_2SheetRow6();
    Iso8859_2SheetRow7();
  }

  lemma BasicJapaneseSheetRows0To7()
    ensures |BasicJapaneseSheet| == 16 && forall r :: 0 <= r < 8 ==> |BasicJapaneseSheet[r]| == 16
    ensures forall r, c :: 0 <= r < 8 && 0 <= c < 16 ==> BasicJapaneseSheet[r][c] == BasicJapaneseSlot(16 * r + c)
  {
    assert forall c :: 0 <= c < 16 ==> BasicJapaneseSheet[0][c] == BasicJapaneseSlot(0 + c);
    assert forall c :: 0 <= c < 16 ==> BasicJapaneseSheet[1][c] == BasicJapaneseSlot(16 + c);
    assert forall c :: 0 <= c < 16 ==> BasicJapaneseSheet[2][c] == BasicJapaneseSlot(32 + c);
    assert forall c :: 0 <= c < 16 ==> BasicJapaneseSheet[3][c] == BasicJapaneseSlot(48 + c);
    assert forall c :: 0 <= c < 16 ==> BasicJapaneseSheet[4][c] == BasicJapaneseSlot(64 + c);
    assert forall c :: 0 <= c < 16 ==> BasicJapaneseSheet[5][c] == BasicJapaneseSlot(80 + c);
    assert forall c :: 0 <= c < 16 ==> BasicJapaneseSheet[6][c] == BasicJapaneseSlot(96 + c);
    assert forall c :: 0 <= c < 16 ==> BasicJapaneseSheet[7][c] == BasicJapaneseSlot(112 + c);
  }

  lemma BasicJapaneseSheetRows8To15()
    ensures |BasicJapaneseSheet| == 16 && forall r :: 8 <= r < 16 ==> |BasicJapaneseSheet[r]| == 16
    ensures forall r, c :: 8 <= r < 16 && 0 <= c < 16 ==> BasicJapaneseSheet[r][c] == BasicJapaneseSlot(16 * r + c)
  {
    assert forall c :: 0 <= c < 16 ==> BasicJapaneseSheet[8][c] == BasicJapaneseSlot(128 + c);
    assert forall c :: 0 <= c < 16 ==> BasicJapaneseSheet[9][c] == BasicJapaneseSlot(144 + c);
    assert forall c :: 0 <= c < 16 ==> BasicJapaneseSheet[10][c] == BasicJapaneseSlot(160 + c);
    assert forall c :: 0 <= c < 16 ==> BasicJapaneseSheet[11][c] == BasicJapaneseSlot(176 + c);
    assert forall c :: 0 <= c < 16 ==> BasicJapaneseSheet[12][c] == BasicJapaneseSlot(192 + c);
    assert forall c :: 0 <= c < 16 ==> BasicJapaneseSheet[13][c] == BasicJapaneseSlot(208 + c);
    assert forall c :: 0 <= c < 16 ==> BasicJapaneseSheet[14][c] == BasicJapaneseSlot(224 + c);
    assert forall c :: 0 <= c < 16 ==> BasicJapaneseSheet[15][c] == BasicJapaneseSlot(240 + c);
  }

  /** Every cell of the Japanese sheet holds its reference code point. */
  lemma BasicJapaneseSheetLayout()
    ensures |BasicJapaneseSheet| == 16 && Uniform(BasicJapaneseSheet, 16)
    ensures forall r, c :: 0 <= r < 16 && 0 <= c < 16 ==> BasicJapaneseSheet[r][c] == BasicJapaneseSlot(16 * r + c)
  {
    BasicJapaneseSheetRows0To7();
    BasicJapaneseSheetRows8To15();
  }

  lemma KoreanJamoSheetRows0To7()
    ensures |KoreanJamoSheet| == 16 && forall r :: 0 <= r < 8 ==> |KoreanJamoSheet[r]| == 16
    ensures forall r, c :: 0 <= r < 8 && 0 <= c < 16 ==> KoreanJamoSheet[r][c] == 0x1100 + 16 * c + r
  {
    assert forall c :: 0 <= c < 16 ==> KoreanJamoSheet[0][c] == 0x1100 + 16 * c + 0;
    assert forall c :: 0 <= c < 16 ==> KoreanJamoSheet[1][c] == 0x1100 + 16 * c + 1;
    assert forall c :: 0 <= c < 16 ==> KoreanJamoSheet[2][c] == 0x1100 + 16 * c + 2;
    assert forall c :: 0 <= c < 16 ==> KoreanJamoSheet[3][c] == 0x1100 + 16 * c + 3;
    assert forall c :: 0 <= c < 16 ==> KoreanJamoSheet[4][c] == 0x1100 + 16 * c + 4;
    assert forall c :: 0 <= c < 16 ==> KoreanJamoSheet[5][c] == 0x1100 + 16 * c + 5;
    assert forall c :: 0 <= c < 16 ==> KoreanJamoSheet[6][c] == 0x1100 + 16 * c + 6;
    assert forall c :: 0 <= c < 16 ==> KoreanJamoSheet[7][c] == 0x1100 + 16 * c + 7;
  }

  lemma KoreanJamoSheetRows8To15()
    ensures |KoreanJamoSheet| == 16 && forall r :: 8 <= r < 16 ==> |KoreanJamoSheet[r]| == 16
    ensures forall r, c :: 8 <= r < 16 && 0 <= c < 16 ==> KoreanJamoSheet[r][c] == 0x1100 + 16 * c + r
  {
    assert forall c :: 0 <= c < 16 ==> KoreanJamoSheet[8][c] == 0x1100 + 16 * c + 8;
    assert forall c :: 0 <= c < 16 ==> KoreanJamoSheet[9][c] == 0x1100 + 16 * c + 9;
    assert forall c :: 0 <= c < 16 ==> KoreanJamoSheet[10][c] == 0x1100 + 16 * c + 10;
    assert forall c :: 0 <= c < 16 ==> KoreanJamoSheet[11][c] == 0x1100 + 16 * c + 11;
    assert forall c :: 0 <= c < 16 ==> KoreanJamoSheet[12][c] == 0x1100 + 16 * c + 12;
    assert forall c :: 0 <= c < 16 ==> KoreanJamoSheet[13][c] == 0x1100 + 16 * c + 13;
    assert forall c :: 0 <= c < 16 ==> KoreanJamoSheet[14][c] == 0x1100 + 16 * c + 14;
    assert forall c :: 0 <= c < 16 ==> KoreanJamoSheet[15][c] == 0x1100 + 16 * c + 15;
  }

  /** Cell (r, c) of the Jamo sheet holds U+1100 + 16 * c + r: the block, transposed. */
  lemma KoreanJamoSheetLayout()
    ensures |KoreanJamoSheet| == 16 && Uniform(KoreanJamoSheet, 16)
    ensures forall r, c :: 0 <= r < 16 && 0 <= c < 16 ==> KoreanJamoSheet[r][c] == 0x1100 + 16 * c + r
  {
    KoreanJamoSheetRows0To7();
    KoreanJamoSheetRows8To15();
  }

  lemma NumbersSheetLayout()
    ensures |NumbersSheet| == 3 && Uniform(NumbersSheet, 5)
    ensures forall r, c :: 0 <= r < 3 && 0 <= c < 5 ==> NumbersSheet[r][c] == NumbersSlot(5 * r + c)
  {
    assert forall c :: 0 <= c < 5 ==> NumbersSheet[0][c] == NumbersSlot(0 + c);
    assert forall c :: 0 <= c < 5 ==> NumbersSheet[1][c] == NumbersSlot(5 + c);
    assert forall c :: 0 <= c < 5 ==> NumbersSheet[2][c] == NumbersSlot(10 + c);
  }

  // ----- The arrays as the registry hands them out -----

  /** map_ascii: 128 slots; control codes and DEL are skipped, printable ASCII maps to itself. */
  lemma AsciiLayout()
    ensures |MapAscii| == 129 && MapAscii[128] == Terminator
    ensures forall i :: 0 <= i < 128 ==> (MapAscii[i] == Skip <==> i < 0x20 || i == 0x7F)
    ensures forall i :: 0x20 <= i <= 0x7E ==> MapAscii[i] == i
  {
    AsciiSheetLayout();
    FlattenMatches(AsciiSheet, 16, AsciiSlot, 0);
  }

  /** map_iso_8859_1: 256 slots; both control ranges skipped, every other slot maps to itself. */
  lemma Iso8859_1Layout()
    ensures |MapIso8859_1| == 257 && MapIso8859_1[256] == Terminator
    ensures forall i :: 0 <= i < 256 ==> (MapIso8859_1[i] == Skip <==> i < 0x20 || 0x80 <= i < 0xA0)
    ensures forall i :: 0x20 <= i < 0x80 || 0xA0 <= i < 0x100 ==> MapIso8859_1[i] == i
  {
    Iso8859_1SheetLayout();
    FlattenMatches(Iso8859_1Sheet, 16, Iso8859_1Slot, 0);
  }

  /** Latin-1 keeps the ASCII slots and adds a glyph for DEL, which ascii skips. */
  lemma Iso8859_1ExtendsAscii()
    ensures |MapAscii| == 129 && |MapIso8859_1| == 257
    ensures forall i :: 0 <= i < 0x7F ==> MapIso8859_1[i] == MapAscii[i]
    ensures MapAscii[0x7F] == Skip && MapIso8859_1[0x7F] == 0x7F
  {
    AsciiLayout();
    Iso8859_1Layout();
  }

  /** Below 0x80 code page 1252 is ASCII, slot for slot. */
  lemma Cp1252LowerHalf()
    ensures |MapCp1252| == 257 && MapCp1252[256] == Terminator
    ensures |MapAscii| == 129 && forall i :: 0 <= i < 0x80 ==> MapCp1252[i] == MapAscii[i]
  {
    AsciiLayout();
    Cp1252SheetRows0To7();
    Cp1252SheetRows8To15();
    FlattenLength(Cp1252Sheet, 16);
    forall i | 0 <= i < 0x80
      ensures MapCp1252[i] == Cp1252Sheet[i / 16][i % 16]
    {
      FlattenAt(Cp1252Sheet, 16, i / 16, i % 16);
    }
  }

  /** Slots 0x80-0x9F: the euro sign first, a skip exactly at the five skipped slots, glyphs beyond Latin-1 elsewhere. */
  lemma Cp1252C1Range()
    ensures |MapCp1252| == 257
    ensures MapCp1252[0x80] == 0x20AC
    ensures forall i :: 0x80 <= i < 0xA0 ==> (MapCp1252[i] == Skip <==> Cp1252Skipped(i))
    ensures forall i :: 0x80 <= i < 0xA0 ==> MapCp1252[i] == Skip || OutsideLatin1(MapCp1252[i])
  {
    Cp1252SheetRows0To7();
    Cp1252SheetRows8To15();
    FlattenLength(Cp1252Sheet, 16);
    forall i | 0x80 <= i < 0xA0
      ensures MapCp1252[i] == Cp1252Sheet[i / 16][i % 16]
    {
      FlattenAt(Cp1252Sheet, 16, i / 16, i % 16);
    }
  }

  /** From 0xA0 up code page 1252 is the identity, as Latin-1 is. */
  lemma Cp1252UpperRange()
    ensures |MapCp1252| == 257
    ensures forall i :: 0xA0 <= i < 0x100 ==> MapCp1252[i] == i
  {
    Cp1252SheetRows0To7();
    Cp1252SheetRows8To15();
    FlattenLength(Cp1252Sheet, 16);
    forall i | 0xA0 <= i < 0x100
      ensures MapCp1252[i] == Cp1252Sheet[i / 16][i % 16]
    {
      FlattenAt(Cp1252Sheet, 16, i / 16, i % 16);
    }
  }

  /**
   * map_cp1252: ASCII below 0x80 (DEL skipped), the euro sign at 0x80, exactly
   * five skipped slots in 0x80-0x9F with every other slot there outside
   * Latin-1, and the identity from 0xA0 up.
   */
  lemma Cp1252Layout()
    ensures |MapCp1252| == 257 && MapCp1252[256] == Terminator
    ensures |MapAscii| == 129 && forall i :: 0 <= i < 0x80 ==> MapCp1252[i] == MapAscii[i]
    ensures MapCp1252[0x80] == 0x20AC
    ensures forall i :: 0x80 <= i < 0xA0 ==> (MapCp1252[i] == Skip <==> Cp1252Skipped(i))
    ensures forall i :: 0x80 <= i < 0xA0 ==> MapCp1252[i] == Skip || OutsideLatin1(MapCp1252[i])
    ensures forall i :: 0xA0 <= i < 0x100 ==> MapCp1252[i] == i
  {
    Cp1252LowerHalf();
    Cp1252C1Range();
    Cp1252UpperRange();
  }

  /**
   * Row 0x90 as written: z with caron (U+017E) is slot 0x9D and slot 0x9E is
   * skipped.  The published code page puts U+017E at 0x9E and leaves 0x9D
   * unassigned; the array keeps the written order.
   */
  lemma Cp1252ZCaronAsWritten()
    ensures |MapCp1252| == 257
    ensures MapCp1252[0x9D] == 0x017E && MapCp1252[0x9E] == Skip
  {
    Cp1252SheetRows8To15();
    FlattenAt(Cp1252Sheet, 16, 9, 13);
    FlattenAt(Cp1252Sheet, 16, 9, 14);
    FlattenLength(Cp1252Sheet, 16);
  }

  /** Code page 1252 is Latin-1 except for DEL and the C1 range, where it puts glyphs Latin-1 lacks. */
  lemma Cp1252AgreesWithLatin1()
    ensures |MapCp1252| == 257 && |MapIso8859_1| == 257
    ensures forall i :: 0 <= i < 0x100 && i != 0x7F && !(0x80 <= i < 0xA0) ==> MapCp1252[i] == MapIso8859_1[i]
    ensures forall i :: 0x80 <= i < 0xA0 ==>
      MapIso8859_1[i] == Skip && (MapCp1252[i] == Skip || OutsideLatin1(MapCp1252[i]))
  {
    AsciiLayout();
    Iso8859_1Layout();
    Cp1252Layout();
  }

  /** Every byte of the upper half of ISO/IEC 8859-2 has a mapped code point, Latin-1's own or one above 0xFF. */
  lemma Iso8859_2CodeMapped(b: int)
    requires 0xA0 <= b <= 0xFF
    ensures Mapped(Iso8859_2Code(b))
    ensures Iso8859_2Code(b) == b || Iso8859_2Code(b) > 0xFF
  {
  }

  /** map_iso_8859_2 read slot by slot is the reference layout Iso8859_2Slot. */
  lemma Iso8859_2Slots()
    ensures |MapIso8859_2| == 129 && MapIso8859_2[128] == Terminator
    ensures forall i :: 0 <= i < 0x80 ==> MapIso8859_2[i] == Iso8859_2Slot(i)
  {
    Iso8859_2SheetLayout();
    FlattenMatches(Iso8859_2Sheet, 16, Iso8859_2Slot, 0);
  }

  /** map_iso_8859_2: slots 0-31 skipped, slot i in 32-127 holds the ISO/IEC 8859-2 code point of byte i + 0x80. */
  lemma Iso8859_2Layout()
    ensures |MapIso8859_2| == 129 && MapIso8859_2[128] == Terminator
    ensures forall i :: 0 <= i < 0x20 ==> MapIso8859_2[i] == Skip
    ensures forall i :: 0x20 <= i < 0x80 ==> Mapped(MapIso8859_2[i]) && MapIso8859_2[i] == Iso8859_2Code(i + 0x80)
  {
    Iso8859_2Slots();
    forall i | 0x20 <= i < 0x80
      ensures Mapped(MapIso8859_2[i])
    {
      Iso8859_2CodeMapped(i + 0x80);
    }
  }

  /**
   * Slot i of iso-8859-2 shows byte i + 0x80: at each such slot it holds either
   * the code point iso-8859-1 holds for that byte or one Latin-1 does not have.
   */
  lemma Iso8859_2FollowsLatin1()
    ensures |MapIso8859_2| == 129 && |MapIso8859_1| == 257
    ensures forall i :: 0x20 <= i < 0x80 ==>
      MapIso8859_2[i] == MapIso8859_1[i + 0x80] || OutsideLatin1(MapIso8859_2[i])
  {
    Iso8859_1Layout();
    Iso8859_2Layout();
    forall i | 0x20 <= i < 0x80
      ensures MapIso8859_2[i] == MapIso8859_1[i + 0x80] || OutsideLatin1(MapIso8859_2[i])
    {
      Iso8859_2CodeMapped(i + 0x80);
    }
  }

  /** map_basic_japanese: slot i holds U+3000 + i for all 256 slots. */
  lemma BasicJapaneseLayout()
    ensures |MapBasicJapanese| == 257 && MapBasicJapanese[256] == Terminator
    ensures forall i :: 0 <= i < 256 ==> MapBasicJapanese[i] == 0x3000 + i
  {
    BasicJapaneseSheetLayout();
    FlattenMatches(BasicJapaneseSheet, 16, BasicJapaneseSlot, 0);
  }

  /** map_korean_jamo: slot 16 * r + c holds U+1100 + 16 * c + r, the Jamo block transposed. */
  lemma KoreanJamoCell(r: int, c: int)
    requires 0 <= r < 16 && 0 <= c < 16
    ensures |MapKoreanJamo| == 257
    ensures MapKoreanJamo[16 * r + c] == 0x1100 + 16 * c + r
  {
    KoreanJamoSheetLayout();
    FlattenAt(KoreanJamoSheet, 16, r, c);
    var cells := Flatten(KoreanJamoSheet);
    assert MapKoreanJamo == cells + [Terminator];
    assert MapKoreanJamo[16 * r + c] == cells[16 * r + c];
  }

  /** Two base-16 digit pairs name the same number only if the digits agree. */
  lemma DigitsUnique(a: int, b: int, x: int, y: int)
    requires 0 <= a < 16 && 0 <= b < 16 && 0 <= x < 16 && 0 <= y < 16
    ensures 16 * a + b == 16 * x + y <==> a == x && b == y
  {
  }

  /**
   * Every code point U+1100 + 16 * hi + lo of the Hangul Jamo block sits in
   * exactly one slot of korean-jamo: row lo, column hi.
   */
  lemma KoreanJamoHoldsEachCodePointOnce(r: int, c: int, hi: int, lo: int)
    requires 0 <= r < 16 && 0 <= c < 16 && 0 <= hi < 16 && 0 <= lo < 16
    ensures |MapKoreanJamo| == 257
    ensures MapKoreanJamo[16 * r + c] == 0x1100 + 16 * hi + lo <==> r == lo && c == hi
  {
    KoreanJamoCell(r, c);
    DigitsUnique(c, r, hi, lo);
  }

  /** korean-jamo as a whole: 256 slots, every one inside the Jamo block. */
  lemma KoreanJamoLayout()
    ensures |MapKoreanJamo| == 257 && MapKoreanJamo[256] == Terminator
    ensures forall k :: 0 <= k < 256 ==> 0x1100 <= MapKoreanJamo[k] < 0x1200
  {
    KoreanJamoSheetLayout();
    FlattenLength(KoreanJamoSheet, 16);
    forall k | 0 <= k < 256
      ensures 0x1100 <= MapKoreanJamo[k] < 0x1200
    {
      KoreanJamoCell(k / 16, k % 16);
    }
  }

  /** map_numbers: the five-by-three sheet "01234", "56789", "%. :x", with no skipped slot. */
  lemma NumbersLayout()
    ensures |MapNumbers| == 16 && MapNumbers[15] == Terminator
    ensures forall i :: 0 <= i < 15 ==> MapNumbers[i] == NumbersPicture[i] as int && MapNumbers[i] != Skip
    ensures forall i :: 0 <= i < 10 ==> MapNumbers[i] == '0' as int + i
    ensures MapNumbers[10..15] == ['%' as int, '.' as int, ' ' as int, ':' as int, 'x' as int]
  {
    NumbersSheetLayout();
    FlattenMatches(NumbersSheet, 5, NumbersSlot, 0);
  }

  /** The ASCII table is well formed and its scan stops after exactly 128 slots. */
  lemma AsciiWellFormed()
    ensures WellFormed(MapAscii) && SlotCount(MapAscii) == 128
  {
    AsciiLayout();
    WellFormedIntro(MapAscii);
  }

  /** The ISO/IEC 8859-1 table is well formed and its scan stops after exactly 256 slots. */
  lemma Iso8859_1WellFormed()
    ensures WellFormed(MapIso8859_1) && SlotCount(MapIso8859_1) == 256
  {
    Iso8859_1Layout();
    WellFormedIntro(MapIso8859_1);
  }

  /** The code page 1252 table is well formed and its scan stops after exactly 256 slots. */
  lemma Cp1252WellFormed()
    ensures WellFormed(MapCp1252) && SlotCount(MapCp1252) == 256
  {
    Cp1252Layout();
    AsciiWellFormed();
    WellFormedIntro(MapCp1252);
  }

  /** The ISO/IEC 8859-2 table is well formed and its scan stops after exactly 128 slots. */
  lemma Iso8859_2WellFormed()
    ensures WellFormed(MapIso8859_2) && SlotCount(MapIso8859_2) == 128
  {
    Iso8859_2Layout();
    WellFormedIntro(MapIso8859_2);
  }

  /** The basic-japanese table is well formed and its scan stops after exactly 256 slots. */
  lemma BasicJapaneseWellFormed()
    ensures WellFormed(MapBasicJapanese) && SlotCount(MapBasicJapanese) == 256
  {
    BasicJapaneseLayout();
    WellFormedWithin(MapBasicJapanese, 0x3000, 0x3100);
  }

  /** The korean-jamo table is well formed and its scan stops after exactly 256 slots. */
  lemma KoreanJamoWellFormed()
    ensures WellFormed(MapKoreanJamo) && SlotCount(MapKoreanJamo) == 256
  {
    KoreanJamoLayout();
    WellFormedWithin(MapKoreanJamo, 0x1100, 0x1200);
  }

  /** The numbers table is well formed and its scan stops after exactly 15 slots. */
  lemma NumbersWellFormed()
    ensures WellFormed(MapNumbers) && SlotCount(MapNumbers) == 15
  {
    NumbersLayout();
    WellFormedIntro(MapNumbers);
  }

  /**
   * All seven arrays are well formed, and a scan for the terminator finds
   * 128, 256, 256, 128, 256, 256 and 15 slots respectively.
   */
  lemma TablesWellFormed()
    ensures WellFormed(MapAscii) && SlotCount(MapAscii) == 128
    ensures WellFormed(MapIso8859_1) && SlotCount(MapIso8859_1) == 256
    ensures WellFormed(MapCp1252) && SlotCount(MapCp1252) == 256
    ensures WellFormed(MapIso8859_2) && SlotCount(MapIso8859_2) == 128
    ensures WellFormed(MapBasicJapanese) && SlotCount(MapBasicJapanese) == 256
    ensures WellFormed(MapKoreanJamo) && SlotCount(MapKoreanJamo) == 256
    ensures WellFormed(MapNumbers) && SlotCount(MapNumbers) == 15
  {
    AsciiWellFormed();
    Iso8859_1WellFormed();
    Cp1252WellFormed();
    Iso8859_2WellFormed();
    BasicJapaneseWellFormed();
    KoreanJamoWellFormed();
    NumbersWellFormed();
  }
}
