/** The discrete logarithm of the 8-bit xorshift generator: the position of a
state within the canonical cycle 1, Next(1), Next(Next(1)), ...

The table is a literal; IndexStep below checks it against the transform of
module Xorshift for every state. It is laid out as a balanced decision tree on
the state so that the solver can case-split on it cheaply.
 */
module CycleIndex {
  import opened Xorshift

  /** Position of x in the cycle started from 1; the absorbing state 0 is given
      position 255, outside the cycle. */
  function Index(x: bv8): nat
  {
    if x < 0x80 then
      if x < 0x40 then
        if x < 0x20 then
          if x < 0x10 then
            if x < 0x08 then
              if x < 0x04 then
                if x < 0x02 then (if x < 0x01 then 255 else 0) else (if x < 0x03 then 64 else 197)
              else
                if x < 0x06 then (if x < 0x05 then 132 else 160) else (if x < 0x07 then 115 else 141)
            else
              if x < 0x0C then
                if x < 0x0A then (if x < 0x09 then 19 else 178) else (if x < 0x0B then 101 else 38)
              else
                if x < 0x0E then (if x < 0x0D then 35 else 134) else (if x < 0x0F then 96 else 77)
          else
            if x < 0x18 then
              if x < 0x14 then
                if x < 0x12 then (if x < 0x11 then 87 else 225) else (if x < 0x13 then 65 else 9)
              else
                if x < 0x16 then (if x < 0x15 then 169 else 12) else (if x < 0x17 then 210 else 37)
            else
              if x < 0x1C then
                if x < 0x1A then (if x < 0x19 then 70 else 13) else (if x < 0x1B then 21 else 81)
              else
                if x < 0x1E then (if x < 0x1D then 60 else 234) else (if x < 0x1F then 152 else 149)
        else
          if x < 0x30 then
            if x < 0x28 then
              if x < 0x24 then
                if x < 0x22 then (if x < 0x21 then 155 else 108) else (if x < 0x23 then 245 else 62)
              else
                if x < 0x26 then (if x < 0x25 then 133 else 191) else (if x < 0x27 then 148 else 75)
            else
              if x < 0x2C then
                if x < 0x2A then (if x < 0x29 then 121 else 156) else (if x < 0x2B then 51 else 68)
              else
                if x < 0x2E then (if x < 0x2D then 248 else 215) else (if x < 0x2F then 72 else 10)
          else
            if x < 0x38 then
              if x < 0x34 then
                if x < 0x32 then (if x < 0x31 then 138 else 168) else (if x < 0x33 then 229 else 114)
              else
                if x < 0x36 then (if x < 0x35 then 89 else 137) else (if x < 0x37 then 116 else 244)
            else
              if x < 0x3C then
                if x < 0x3A then (if x < 0x39 then 240 else 171) else (if x < 0x3B then 56 else 246)
              else
                if x < 0x3E then (if x < 0x3D then 32 else 226) else (if x < 0x3F then 3 else 106)
      else
        if x < 0x60 then
          if x < 0x50 then
            if x < 0x48 then
              if x < 0x44 then
                if x < 0x42 then (if x < 0x41 then 42 else 162) else (if x < 0x43 then 41 else 150)
              else
                if x < 0x46 then (if x < 0x45 then 206 else 249) else (if x < 0x47 then 222 else 7)
            else
              if x < 0x4C then
                if x < 0x4A then (if x < 0x49 then 20 else 144) else (if x < 0x4B then 18 else 130)
              else
                if x < 0x4E then (if x < 0x4D then 2 else 46) else (if x < 0x4F then 247 else 176)
          else
            if x < 0x58 then
              if x < 0x54 then
                if x < 0x52 then (if x < 0x51 then 124 else 235) else (if x < 0x53 then 43 else 49)
              else
                if x < 0x56 then (if x < 0x55 then 53 else 129) else (if x < 0x57 then 180 else 73)
            else
              if x < 0x5C then
                if x < 0x5A then (if x < 0x59 then 165 else 74) else (if x < 0x5B then 102 else 136)
              else
                if x < 0x5E then (if x < 0x5D then 172 else 196) else (if x < 0x5F then 219 else 224)
        else
          if x < 0x70 then
            if x < 0x68 then
              if x < 0x64 then
                if x < 0x62 then (if x < 0x61 then 58 else 122) else (if x < 0x63 then 15 else 186)
              else
                if x < 0x66 then (if x < 0x65 then 223 else 194) else (if x < 0x67 then 45 else 82)
            else
              if x < 0x6C then
                if x < 0x6A then (if x < 0x69 then 113 else 16) else (if x < 0x6B then 107 else 182)
              else
                if x < 0x6E then (if x < 0x6D then 36 else 5) else (if x < 0x6F then 159 else 236)
          else
            if x < 0x78 then
              if x < 0x74 then
                if x < 0x72 then (if x < 0x71 then 119 else 221) else (if x < 0x73 then 25 else 52)
              else
                if x < 0x76 then (if x < 0x75 then 189 else 14) else (if x < 0x77 then 207 else 118)
            else
              if x < 0x7C then
                if x < 0x7A then (if x < 0x79 then 227 else 95) else (if x < 0x7B then 231 else 59)
              else
                if x < 0x7E then (if x < 0x7D then 104 else 50) else (if x < 0x7F then 97 else 239)
    else
      if x < 0xC0 then
        if x < 0xA0 then
          if x < 0x90 then
            if x < 0x88 then
              if x < 0x84 then
                if x < 0x82 then (if x < 0x81 then 110 else 177) else (if x < 0x83 then 66 else 80)
              else
                if x < 0x86 then (if x < 0x85 then 109 else 214) else (if x < 0x87 then 146 else 105)
            else
              if x < 0x8C then
                if x < 0x8A then (if x < 0x89 then 200 else 161) else (if x < 0x8B then 166 else 48)
              else
                if x < 0x8E then (if x < 0x8D then 183 else 193) else (if x < 0x8F then 30 else 117)
          else
            if x < 0x98 then
              if x < 0x94 then
                if x < 0x92 then (if x < 0x91 then 88 else 251) else (if x < 0x93 then 147 else 47)
              else
                if x < 0x96 then (if x < 0x95 then 86 else 98) else (if x < 0x97 then 63 else 217)
            else
              if x < 0x9C then
                if x < 0x9A then (if x < 0x99 then 103 else 252) else (if x < 0x9B then 158 else 142)
              else
                if x < 0x9E then (if x < 0x9D then 164 else 90) else (if x < 0x9F then 17 else 204)
        else
          if x < 0xB0 then
            if x < 0xA8 then
              if x < 0xA4 then
                if x < 0xA2 then (if x < 0xA1 then 192 else 154) else (if x < 0xA3 then 203 else 228)
              else
                if x < 0xA6 then (if x < 0xA5 then 111 else 131) else (if x < 0xA7 then 211 else 209)
            else
              if x < 0xAC then
                if x < 0xAA then (if x < 0xA9 then 237 else 112) else (if x < 0xAB then 27 else 230)
              else
                if x < 0xAE then (if x < 0xAD then 23 else 1) else (if x < 0xAF then 173 else 218)
          else
            if x < 0xB8 then
              if x < 0xB4 then
                if x < 0xB2 then (if x < 0xB1 then 233 else 232) else (if x < 0xB3 then 76 else 202)
              else
                if x < 0xB6 then (if x < 0xB5 then 170 else 85) else (if x < 0xB7 then 67 else 145)
            else
              if x < 0xBC then
                if x < 0xBA then (if x < 0xB9 then 128 else 139) else (if x < 0xBB then 6 else 212)
              else
                if x < 0xBE then (if x < 0xBD then 220 else 99) else (if x < 0xBF then 185 else 198)
      else
        if x < 0xE0 then
          if x < 0xD0 then
            if x < 0xC8 then
              if x < 0xC4 then
                if x < 0xC2 then (if x < 0xC1 then 93 else 135) else (if x < 0xC3 then 125 else 143)
              else
                if x < 0xC6 then (if x < 0xC5 then 187 else 238) else (if x < 0xC7 then 92 else 4)
            else
              if x < 0xCC then
                if x < 0xCA then (if x < 0xC9 then 184 else 8) else (if x < 0xCB then 22 else 254)
              else
                if x < 0xCE then (if x < 0xCD then 157 else 243) else (if x < 0xCF then 199 else 190)
          else
            if x < 0xD8 then
              if x < 0xD4 then
                if x < 0xD2 then (if x < 0xD1 then 44 else 253) else (if x < 0xD3 then 188 else 78)
              else
                if x < 0xD6 then (if x < 0xD5 then 40 else 33) else (if x < 0xD7 then 123 else 28)
            else
              if x < 0xDC then
                if x < 0xDA then (if x < 0xD9 then 71 else 79) else (if x < 0xDB then 31 else 250)
              else
                if x < 0xDE then (if x < 0xDD then 100 else 208) else (if x < 0xDF then 69 else 84)
        else
          if x < 0xF0 then
            if x < 0xE8 then
              if x < 0xE4 then
                if x < 0xE2 then (if x < 0xE1 then 83 else 24) else (if x < 0xE3 then 242 else 57)
              else
                if x < 0xE6 then (if x < 0xE5 then 126 else 179) else (if x < 0xE7 then 54 else 205)
            else
              if x < 0xEC then
                if x < 0xEA then (if x < 0xE9 then 216 else 55) else (if x < 0xEB then 213 else 120)
              else
                if x < 0xEE then (if x < 0xED then 201 else 151) else (if x < 0xEF then 153 else 34)
          else
            if x < 0xF8 then
              if x < 0xF4 then
                if x < 0xF2 then (if x < 0xF1 then 175 else 241) else (if x < 0xF3 then 195 else 174)
              else
                if x < 0xF6 then (if x < 0xF5 then 181 else 91) else (if x < 0xF7 then 94 else 39)
            else
              if x < 0xFC then
                if x < 0xFA then (if x < 0xF9 then 140 else 26) else (if x < 0xFB then 11 else 127)
              else
                if x < 0xFE then (if x < 0xFD then 61 else 29) else (if x < 0xFF then 167 else 163)
  }

  /** Every non-zero state has a position in the cycle, and position 0 belongs
      to state 1 alone. */
  lemma IndexRange(x: bv8)
    ensures Index(x) < Period <==> x != 0
    ensures Index(x) == 0 <==> x == 1
  {
  }

  /** The table is consistent with the transform: one step of the generator
      moves one position forward in the cycle, wrapping from 254 back to 0. */
  lemma IndexStep(x: bv8)
    requires x != 0
    ensures Index(Next(x)) == (Index(x) + 1) % Period
  {
  }
}
