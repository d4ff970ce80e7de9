/**
 The S-box by which record sets and name servers are shuffled (that of AES), row by row, and its inverse.
 */
module DnsBox {
  function B0(j: nat): nat {
    match j
    case 0 => 99 case 1 => 124 case 2 => 119 case 3 => 123 case 4 => 242 case 5 => 107 case 6 => 111 case 7 => 197
    case 8 => 48 case 9 => 1 case 10 => 103 case 11 => 43 case 12 => 254 case 13 => 215 case 14 => 171 case _ => 118
  }

  function B1(j: nat): nat {
    match j
    case 0 => 202 case 1 => 130 case 2 => 201 case 3 => 125 case 4 => 250 case 5 => 89 case 6 => 71 case 7 => 240
    case 8 => 173 case 9 => 212 case 10 => 162 case 11 => 175 case 12 => 156 case 13 => 164 case 14 => 114 case _ => 192
  }

  function B2(j: nat): nat {
    match j
    case 0 => 183 case 1 => 253 case 2 => 147 case 3 => 38 case 4 => 54 case 5 => 63 case 6 => 247 case 7 => 204
    case 8 => 52 case 9 => 165 case 10 => 229 case 11 => 241 case 12 => 113 case 13 => 216 case 14 => 49 case _ => 21
  }

  function B3(j: nat): nat {
    match j
    case 0 => 4 case 1 => 199 case 2 => 35 case 3 => 195 case 4 => 24 case 5 => 150 case 6 => 5 case 7 => 154
    case 8 => 7 case 9 => 18 case 10 => 128 case 11 => 226 case 12 => 235 case 13 => 39 case 14 => 178 case _ => 117
  }

  function B4(j: nat): nat {
    match j
    case 0 => 9 case 1 => 131 case 2 => 44 case 3 => 26 case 4 => 27 case 5 => 110 case 6 => 90 case 7 => 160
    case 8 => 82 case 9 => 59 case 10 => 214 case 11 => 179 case 12 => 41 case 13 => 227 case 14 => 47 case _ => 132
  }

  function B5(j: nat): nat {
    match j
    case 0 => 83 case 1 => 209 case 2 => 0 case 3 => 237 case 4 => 32 case 5 => 252 case 6 => 177 case 7 => 91
    case 8 => 106 case 9 => 203 case 10 => 190 case 11 => 57 case 12 => 74 case 13 => 76 case 14 => 88 case _ => 207
  }

  function B6(j: nat): nat {
    match j
    case 0 => 208 case 1 => 239 case 2 => 170 case 3 => 251 case 4 => 67 case 5 => 77 case 6 => 51 case 7 => 133
    case 8 => 69 case 9 => 249 case 10 => 2 case 11 => 127 case 12 => 80 case 13 => 60 case 14 => 159 case _ => 168
  }

  function B7(j: nat): nat {
    match j
    case 0 => 81 case 1 => 163 case 2 => 64 case 3 => 143 case 4 => 146 case 5 => 157 case 6 => 56 case 7 => 245
    case 8 => 188 case 9 => 182 case 10 => 218 case 11 => 33 case 12 => 16 case 13 => 255 case 14 => 243 case _ => 210
  }

  function B8(j: nat): nat {
    match j
    case 0 => 205 case 1 => 12 case 2 => 19 case 3 => 236 case 4 => 95 case 5 => 151 case 6 => 68 case 7 => 23
    case 8 => 196 case 9 => 167 case 10 => 126 case 11 => 61 case 12 => 100 case 13 => 93 case 14 => 25 case _ => 115
  }

  function B9(j: nat): nat {
    match j
    case 0 => 96 case 1 => 129 case 2 => 79 case 3 => 220 case 4 => 34 case 5 => 42 case 6 => 144 case 7 => 136
    case 8 => 70 case 9 => 238 case 10 => 184 case 11 => 20 case 12 => 222 case 13 => 94 case 14 => 11 case _ => 219
  }

  function B10(j: nat): nat {
    match j
    case 0 => 224 case 1 => 50 case 2 => 58 case 3 => 10 case 4 => 73 case 5 => 6 case 6 => 36 case 7 => 92
    case 8 => 194 case 9 => 211 case 10 => 172 case 11 => 98 case 12 => 145 case 13 => 149 case 14 => 228 case _ => 121
  }

  function B11(j: nat): nat {
    match j
    case 0 => 231 case 1 => 200 case 2 => 55 case 3 => 109 case 4 => 141 case 5 => 213 case 6 => 78 case 7 => 169
    case 8 => 108 case 9 => 86 case 10 => 244 case 11 => 234 case 12 => 101 case 13 => 122 case 14 => 174 case _ => 8
  }

  function B12(j: nat): nat {
    match j
    case 0 => 186 case 1 => 120 case 2 => 37 case 3 => 46 case 4 => 28 case 5 => 166 case 6 => 180 case 7 => 198
    case 8 => 232 case 9 => 221 case 10 => 116 case 11 => 31 case 12 => 75 case 13 => 189 case 14 => 139 case _ => 138
  }

  function B13(j: nat): nat {
    match j
    case 0 => 112 case 1 => 62 case 2 => 181 case 3 => 102 case 4 => 72 case 5 => 3 case 6 => 246 case 7 => 14
    case 8 => 97 case 9 => 53 case 10 => 87 case 11 => 185 case 12 => 134 case 13 => 193 case 14 => 29 case _ => 158
  }

  function B14(j: nat): nat {
    match j
    case 0 => 225 case 1 => 248 case 2 => 152 case 3 => 17 case 4 => 105 case 5 => 217 case 6 => 142 case 7 => 148
    case 8 => 155 case 9 => 30 case 10 => 135 case 11 => 233 case 12 => 206 case 13 => 85 case 14 => 40 case _ => 223
  }

  function B15(j: nat): nat {
    match j
    case 0 => 140 case 1 => 161 case 2 => 137 case 3 => 13 case 4 => 191 case 5 => 230 case 6 => 66 case 7 => 104
    case 8 => 65 case 9 => 153 case 10 => 45 case 11 => 15 case 12 => 176 case 13 => 84 case 14 => 187 case _ => 22
  }

  function U0(j: nat): nat {
    match j
    case 0 => 82 case 1 => 9 case 2 => 106 case 3 => 213 case 4 => 48 case 5 => 54 case 6 => 165 case 7 => 56
    case 8 => 191 case 9 => 64 case 10 => 163 case 11 => 158 case 12 => 129 case 13 => 243 case 14 => 215 case _ => 251
  }

  function U1(j: nat): nat {
    match j
    case 0 => 124 case 1 => 227 case 2 => 57 case 3 => 130 case 4 => 155 case 5 => 47 case 6 => 255 case 7 => 135
    case 8 => 52 case 9 => 142 case 10 => 67 case 11 => 68 case 12 => 196 case 13 => 222 case 14 => 233 case _ => 203
  }

  function U2(j: nat): nat {
    match j
    case 0 => 84 case 1 => 123 case 2 => 148 case 3 => 50 case 4 => 166 case 5 => 194 case 6 => 35 case 7 => 61
    case 8 => 238 case 9 => 76 case 10 => 149 case 11 => 11 case 12 => 66 case 13 => 250 case 14 => 195 case _ => 78
  }

  function U3(j: nat): nat {
    match j
    case 0 => 8 case 1 => 46 case 2 => 161 case 3 => 102 case 4 => 40 case 5 => 217 case 6 => 36 case 7 => 178
    case 8 => 118 case 9 => 91 case 10 => 162 case 11 => 73 case 12 => 109 case 13 => 139 case 14 => 209 case _ => 37
  }

  function U4(j: nat): nat {
    match j
    case 0 => 114 case 1 => 248 case 2 => 246 case 3 => 100 case 4 => 134 case 5 => 104 case 6 => 152 case 7 => 22
    case 8 => 212 case 9 => 164 case 10 => 92 case 11 => 204 case 12 => 93 case 13 => 101 case 14 => 182 case _ => 146
  }

  function U5(j: nat): nat {
    match j
    case 0 => 108 case 1 => 112 case 2 => 72 case 3 => 80 case 4 => 253 case 5 => 237 case 6 => 185 case 7 => 218
    case 8 => 94 case 9 => 21 case 10 => 70 case 11 => 87 case 12 => 167 case 13 => 141 case 14 => 157 case _ => 132
  }

  function U6(j: nat): nat {
    match j
    case 0 => 144 case 1 => 216 case 2 => 171 case 3 => 0 case 4 => 140 case 5 => 188 case 6 => 211 case 7 => 10
    case 8 => 247 case 9 => 228 case 10 => 88 case 11 => 5 case 12 => 184 case 13 => 179 case 14 => 69 case _ => 6
  }

  function U7(j: nat): nat {
    match j
    case 0 => 208 case 1 => 44 case 2 => 30 case 3 => 143 case 4 => 202 case 5 => 63 case 6 => 15 case 7 => 2
    case 8 => 193 case 9 => 175 case 10 => 189 case 11 => 3 case 12 => 1 case 13 => 19 case 14 => 138 case _ => 107
  }

  function U8(j: nat): nat {
    match j
    case 0 => 58 case 1 => 145 case 2 => 17 case 3 => 65 case 4 => 79 case 5 => 103 case 6 => 220 case 7 => 234
    case 8 => 151 case 9 => 242 case 10 => 207 case 11 => 206 case 12 => 240 case 13 => 180 case 14 => 230 case _ => 115
  }

  function U9(j: nat): nat {
    match j
    case 0 => 150 case 1 => 172 case 2 => 116 case 3 => 34 case 4 => 231 case 5 => 173 case 6 => 53 case 7 => 133
    case 8 => 226 case 9 => 249 case 10 => 55 case 11 => 232 case 12 => 28 case 13 => 117 case 14 => 223 case _ => 110
  }

  function U10(j: nat): nat {
    match j
    case 0 => 71 case 1 => 241 case 2 => 26 case 3 => 113 case 4 => 29 case 5 => 41 case 6 => 197 case 7 => 137
    case 8 => 111 case 9 => 183 case 10 => 98 case 11 => 14 case 12 => 170 case 13 => 24 case 14 => 190 case _ => 27
  }

  function U11(j: nat): nat {
    match j
    case 0 => 252 case 1 => 86 case 2 => 62 case 3 => 75 case 4 => 198 case 5 => 210 case 6 => 121 case 7 => 32
    case 8 => 154 case 9 => 219 case 10 => 192 case 11 => 254 case 12 => 120 case 13 => 205 case 14 => 90 case _ => 244
  }

  function U12(j: nat): nat {
    match j
    case 0 => 31 case 1 => 221 case 2 => 168 case 3 => 51 case 4 => 136 case 5 => 7 case 6 => 199 case 7 => 49
    case 8 => 177 case 9 => 18 case 10 => 16 case 11 => 89 case 12 => 39 case 13 => 128 case 14 => 236 case _ => 95
  }

  function U13(j: nat): nat {
    match j
    case 0 => 96 case 1 => 81 case 2 => 127 case 3 => 169 case 4 => 25 case 5 => 181 case 6 => 74 case 7 => 13
    case 8 => 45 case 9 => 229 case 10 => 122 case 11 => 159 case 12 => 147 case 13 => 201 case 14 => 156 case _ => 239
  }

  function U14(j: nat): nat {
    match j
    case 0 => 160 case 1 => 224 case 2 => 59 case 3 => 77 case 4 => 174 case 5 => 42 case 6 => 245 case 7 => 176
    case 8 => 200 case 9 => 235 case 10 => 187 case 11 => 60 case 12 => 131 case 13 => 83 case 14 => 153 case _ => 97
  }

  function U15(j: nat): nat {
    match j
    case 0 => 23 case 1 => 43 case 2 => 4 case 3 => 126 case 4 => 186 case 5 => 119 case 6 => 214 case 7 => 38
    case 8 => 225 case 9 => 105 case 10 => 20 case 11 => 99 case 12 => 85 case 13 => 33 case 14 => 12 case _ => 125
  }

  /** The S-box. */
  function Box(x: nat): nat {
    var j := x % 16;
    match x / 16
    case 0 => B0(j) case 1 => B1(j) case 2 => B2(j) case 3 => B3(j)
    case 4 => B4(j) case 5 => B5(j) case 6 => B6(j) case 7 => B7(j)
    case 8 => B8(j) case 9 => B9(j) case 10 => B10(j) case 11 => B11(j)
    case 12 => B12(j) case 13 => B13(j) case 14 => B14(j) case _ => B15(j)
  }

  /** Its inverse. */
  function Unbox(x: nat): nat {
    var j := x % 16;
    match x / 16
    case 0 => U0(j) case 1 => U1(j) case 2 => U2(j) case 3 => U3(j)
    case 4 => U4(j) case 5 => U5(j) case 6 => U6(j) case 7 => U7(j)
    case 8 => U8(j) case 9 => U9(j) case 10 => U10(j) case 11 => U11(j)
    case 12 => U12(j) case 13 => U13(j) case 14 => U14(j) case _ => U15(j)
  }

  lemma Row0(j: nat)
    requires j < 16
    ensures B0(j) < 256 && Unbox(B0(j)) == 0 + j
  {
  }

  lemma Row1(j: nat)
    requires j < 16
    ensures B1(j) < 256 && Unbox(B1(j)) == 16 + j
  {
  }

  lemma Row2(j: nat)
    requires j < 16
    ensures B2(j) < 256 && Unbox(B2(j)) == 32 + j
  {
  }

  lemma Row3(j: nat)
    requires j < 16
    ensures B3(j) < 256 && Unbox(B3(j)) == 48 + j
  {
  }

  lemma Row4(j: nat)
    requires j < 16
    ensures B4(j) < 256 && Unbox(B4(j)) == 64 + j
  {
  }

  lemma Row5(j: nat)
    requires j < 16
    ensures B5(j) < 256 && Unbox(B5(j)) == 80 + j
  {
  }

  lemma Row6(j: nat)
    requires j < 16
    ensures B6(j) < 256 && Unbox(B6(j)) == 96 + j
  {
  }

  lemma Row7(j: nat)
    requires j < 16
    ensures B7(j) < 256 && Unbox(B7(j)) == 112 + j
  {
  }

  lemma Row8(j: nat)
    requires j < 16
    ensures B8(j) < 256 && Unbox(B8(j)) == 128 + j
  {
  }

  lemma Row9(j: nat)
    requires j < 16
    ensures B9(j) < 256 && Unbox(B9(j)) == 144 + j
  {
  }

  lemma Row10(j: nat)
    requires j < 16
    ensures B10(j) < 256 && Unbox(B10(j)) == 160 + j
  {
  }

  lemma Row11(j: nat)
    requires j < 16
    ensures B11(j) < 256 && Unbox(B11(j)) == 176 + j
  {
  }

  lemma Row12(j: nat)
    requires j < 16
    ensures B12(j) < 256 && Unbox(B12(j)) == 192 + j
  {
  }

  lemma Row13(j: nat)
    requires j < 16
    ensures B13(j) < 256 && Unbox(B13(j)) == 208 + j
  {
  }

  lemma Row14(j: nat)
    requires j < 16
    ensures B14(j) < 256 && Unbox(B14(j)) == 224 + j
  {
  }

  lemma Row15(j: nat)
    requires j < 16
    ensures B15(j) < 256 && Unbox(B15(j)) == 240 + j
  {
  }

  lemma Nibbles(x: nat)
    requires x < 256
    ensures x / 16 < 16 && x == 16 * (x / 16) + x % 16
  {
  }

  /** The S-box is a bijection of octets. */
  lemma {:induction false} BoxInverse(x: nat)
    requires x < 256
    ensures Box(x) < 256 && Unbox(Box(x)) == x
  {
    Nibbles(x);
    var j := x % 16;
    match x / 16 {
      case 0 => Row0(j); case 1 => Row1(j); case 2 => Row2(j); case 3 => Row3(j);
      case 4 => Row4(j); case 5 => Row5(j); case 6 => Row6(j); case 7 => Row7(j);
      case 8 => Row8(j); case 9 => Row9(j); case 10 => Row10(j); case 11 => Row11(j);
      case 12 => Row12(j); case 13 => Row13(j); case 14 => Row14(j); case _ => Row15(j);
    }
  }
}
