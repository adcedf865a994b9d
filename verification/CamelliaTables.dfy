/** The lookup tables of camellia.c, and the structure they must have: each row repeats one S-box value,
    and S-boxes 2, 3 and 4 are rotations of S-box 1 (RFC 3713, section 2.4.1). */
module CamelliaTables {

  function SP1110(x: bv8): bv32 {
    if x < 128 then
     if x < 64 then
      if x < 32 then
       if x < 16 then
        if x < 8 then
         if x < 4 then (if x < 2 then (if x < 1 then 0x70707000 else 0x82828200) else (if x < 3 then 0x2c2c2c00 else 0xececec00)) else (if x < 6 then (if x < 5 then 0xb3b3b300 else 0x27272700) else (if x < 7 then 0xc0c0c000 else 0xe5e5e500))
        else
         if x < 12 then (if x < 10 then (if x < 9 then 0xe4e4e400 else 0x85858500) else (if x < 11 then 0x57575700 else 0x35353500)) else (if x < 14 then (if x < 13 then 0xeaeaea00 else 0x0c0c0c00) else (if x < 15 then 0xaeaeae00 else 0x41414100))
       else
        if x < 24 then
         if x < 20 then (if x < 18 then (if x < 17 then 0x23232300 else 0xefefef00) else (if x < 19 then 0x6b6b6b00 else 0x93939300)) else (if x < 22 then (if x < 21 then 0x45454500 else 0x19191900) else (if x < 23 then 0xa5a5a500 else 0x21212100))
        else
         if x < 28 then (if x < 26 then (if x < 25 then 0xededed00 else 0x0e0e0e00) else (if x < 27 then 0x4f4f4f00 else 0x4e4e4e00)) else (if x < 30 then (if x < 29 then 0x1d1d1d00 else 0x65656500) else (if x < 31 then 0x92929200 else 0xbdbdbd00))
      else
       if x < 48 then
        if x < 40 then
         if x < 36 then (if x < 34 then (if x < 33 then 0x86868600 else 0xb8b8b800) else (if x < 35 then 0xafafaf00 else 0x8f8f8f00)) else (if x < 38 then (if x < 37 then 0x7c7c7c00 else 0xebebeb00) else (if x < 39 then 0x1f1f1f00 else 0xcecece00))
        else
         if x < 44 then (if x < 42 then (if x < 41 then 0x3e3e3e00 else 0x30303000) else (if x < 43 then 0xdcdcdc00 else 0x5f5f5f00)) else (if x < 46 then (if x < 45 then 0x5e5e5e00 else 0xc5c5c500) else (if x < 47 then 0x0b0b0b00 else 0x1a1a1a00))
       else
        if x < 56 then
         if x < 52 then (if x < 50 then (if x < 49 then 0xa6a6a600 else 0xe1e1e100) else (if x < 51 then 0x39393900 else 0xcacaca00)) else (if x < 54 then (if x < 53 then 0xd5d5d500 else 0x47474700) else (if x < 55 then 0x5d5d5d00 else 0x3d3d3d00))
        else
         if x < 60 then (if x < 58 then (if x < 57 then 0xd9d9d900 else 0x01010100) else (if x < 59 then 0x5a5a5a00 else 0xd6d6d600)) else (if x < 62 then (if x < 61 then 0x51515100 else 0x56565600) else (if x < 63 then 0x6c6c6c00 else 0x4d4d4d00))
     else
      if x < 96 then
       if x < 80 then
        if x < 72 then
         if x < 68 then (if x < 66 then (if x < 65 then 0x8b8b8b00 else 0x0d0d0d00) else (if x < 67 then 0x9a9a9a00 else 0x66666600)) else (if x < 70 then (if x < 69 then 0xfbfbfb00 else 0xcccccc00) else (if x < 71 then 0xb0b0b000 else 0x2d2d2d00))
        else
         if x < 76 then (if x < 74 then (if x < 73 then 0x74747400 else 0x12121200) else (if x < 75 then 0x2b2b2b00 else 0x20202000)) else (if x < 78 then (if x < 77 then 0xf0f0f000 else 0xb1b1b100) else (if x < 79 then 0x84848400 else 0x99999900))
       else
        if x < 88 then
         if x < 84 then (if x < 82 then (if x < 81 then 0xdfdfdf00 else 0x4c4c4c00) else (if x < 83 then 0xcbcbcb00 else 0xc2c2c200)) else (if x < 86 then (if x < 85 then 0x34343400 else 0x7e7e7e00) else (if x < 87 then 0x76767600 else 0x05050500))
        else
         if x < 92 then (if x < 90 then (if x < 89 then 0x6d6d6d00 else 0xb7b7b700) else (if x < 91 then 0xa9a9a900 else 0x31313100)) else (if x < 94 then (if x < 93 then 0xd1d1d100 else 0x17171700) else (if x < 95 then 0x04040400 else 0xd7d7d700))
      else
       if x < 112 then
        if x < 104 then
         if x < 100 then (if x < 98 then (if x < 97 then 0x14141400 else 0x58585800) else (if x < 99 then 0x3a3a3a00 else 0x61616100)) else (if x < 102 then (if x < 101 then 0xdedede00 else 0x1b1b1b00) else (if x < 103 then 0x11111100 else 0x1c1c1c00))
        else
         if x < 108 then (if x < 106 then (if x < 105 then 0x32323200 else 0x0f0f0f00) else (if x < 107 then 0x9c9c9c00 else 0x16161600)) else (if x < 110 then (if x < 109 then 0x53535300 else 0x18181800) else (if x < 111 then 0xf2f2f200 else 0x22222200))
       else
        if x < 120 then
         if x < 116 then (if x < 114 then (if x < 113 then 0xfefefe00 else 0x44444400) else (if x < 115 then 0xcfcfcf00 else 0xb2b2b200)) else (if x < 118 then (if x < 117 then 0xc3c3c300 else 0xb5b5b500) else (if x < 119 then 0x7a7a7a00 else 0x91919100))
        else
         if x < 124 then (if x < 122 then (if x < 121 then 0x24242400 else 0x08080800) else (if x < 123 then 0xe8e8e800 else 0xa8a8a800)) else (if x < 126 then (if x < 125 then 0x60606000 else 0xfcfcfc00) else (if x < 127 then 0x69696900 else 0x50505000))
    else
     if x < 192 then
      if x < 160 then
       if x < 144 then
        if x < 136 then
         if x < 132 then (if x < 130 then (if x < 129 then 0xaaaaaa00 else 0xd0d0d000) else (if x < 131 then 0xa0a0a000 else 0x7d7d7d00)) else (if x < 134 then (if x < 133 then 0xa1a1a100 else 0x89898900) else (if x < 135 then 0x62626200 else 0x97979700))
        else
         if x < 140 then (if x < 138 then (if x < 137 then 0x54545400 else 0x5b5b5b00) else (if x < 139 then 0x1e1e1e00 else 0x95959500)) else (if x < 142 then (if x < 141 then 0xe0e0e000 else 0xffffff00) else (if x < 143 then 0x64646400 else 0xd2d2d200))
       else
        if x < 152 then
         if x < 148 then (if x < 146 then (if x < 145 then 0x10101000 else 0xc4c4c400) else (if x < 147 then 0x00000000 else 0x48484800)) else (if x < 150 then (if x < 149 then 0xa3a3a300 else 0xf7f7f700) else (if x < 151 then 0x75757500 else 0xdbdbdb00))
        else
         if x < 156 then (if x < 154 then (if x < 153 then 0x8a8a8a00 else 0x03030300) else (if x < 155 then 0xe6e6e600 else 0xdadada00)) else (if x < 158 then (if x < 157 then 0x09090900 else 0x3f3f3f00) else (if x < 159 then 0xdddddd00 else 0x94949400))
      else
       if x < 176 then
        if x < 168 then
         if x < 164 then (if x < 162 then (if x < 161 then 0x87878700 else 0x5c5c5c00) else (if x < 163 then 0x83838300 else 0x02020200)) else (if x < 166 then (if x < 165 then 0xcdcdcd00 else 0x4a4a4a00) else (if x < 167 then 0x90909000 else 0x33333300))
        else
         if x < 172 then (if x < 170 then (if x < 169 then 0x73737300 else 0x67676700) else (if x < 171 then 0xf6f6f600 else 0xf3f3f300)) else (if x < 174 then (if x < 173 then 0x9d9d9d00 else 0x7f7f7f00) else (if x < 175 then 0xbfbfbf00 else 0xe2e2e200))
       else
        if x < 184 then
         if x < 180 then (if x < 178 then (if x < 177 then 0x52525200 else 0x9b9b9b00) else (if x < 179 then 0xd8d8d800 else 0x26262600)) else (if x < 182 then (if x < 181 then 0xc8c8c800 else 0x37373700) else (if x < 183 then 0xc6c6c600 else 0x3b3b3b00))
        else
         if x < 188 then (if x < 186 then (if x < 185 then 0x81818100 else 0x96969600) else (if x < 187 then 0x6f6f6f00 else 0x4b4b4b00)) else (if x < 190 then (if x < 189 then 0x13131300 else 0xbebebe00) else (if x < 191 then 0x63636300 else 0x2e2e2e00))
     else
      if x < 224 then
       if x < 208 then
        if x < 200 then
         if x < 196 then (if x < 194 then (if x < 193 then 0xe9e9e900 else 0x79797900) else (if x < 195 then 0xa7a7a700 else 0x8c8c8c00)) else (if x < 198 then (if x < 197 then 0x9f9f9f00 else 0x6e6e6e00) else (if x < 199 then 0xbcbcbc00 else 0x8e8e8e00))
        else
         if x < 204 then (if x < 202 then (if x < 201 then 0x29292900 else 0xf5f5f500) else (if x < 203 then 0xf9f9f900 else 0xb6b6b600)) else (if x < 206 then (if x < 205 then 0x2f2f2f00 else 0xfdfdfd00) else (if x < 207 then 0xb4b4b400 else 0x59595900))
       else
        if x < 216 then
         if x < 212 then (if x < 210 then (if x < 209 then 0x78787800 else 0x98989800) else (if x < 211 then 0x06060600 else 0x6a6a6a00)) else (if x < 214 then (if x < 213 then 0xe7e7e700 else 0x46464600) else (if x < 215 then 0x71717100 else 0xbababa00))
        else
         if x < 220 then (if x < 218 then (if x < 217 then 0xd4d4d400 else 0x25252500) else (if x < 219 then 0xababab00 else 0x42424200)) else (if x < 222 then (if x < 221 then 0x88888800 else 0xa2a2a200) else (if x < 223 then 0x8d8d8d00 else 0xfafafa00))
      else
       if x < 240 then
        if x < 232 then
         if x < 228 then (if x < 226 then (if x < 225 then 0x72727200 else 0x07070700) else (if x < 227 then 0xb9b9b900 else 0x55555500)) else (if x < 230 then (if x < 229 then 0xf8f8f800 else 0xeeeeee00) else (if x < 231 then 0xacacac00 else 0x0a0a0a00))
        else
         if x < 236 then (if x < 234 then (if x < 233 then 0x36363600 else 0x49494900) else (if x < 235 then 0x2a2a2a00 else 0x68686800)) else (if x < 238 then (if x < 237 then 0x3c3c3c00 else 0x38383800) else (if x < 239 then 0xf1f1f100 else 0xa4a4a400))
       else
        if x < 248 then
         if x < 244 then (if x < 242 then (if x < 241 then 0x40404000 else 0x28282800) else (if x < 243 then 0xd3d3d300 else 0x7b7b7b00)) else (if x < 246 then (if x < 245 then 0xbbbbbb00 else 0xc9c9c900) else (if x < 247 then 0x43434300 else 0xc1c1c100))
        else
         if x < 252 then (if x < 250 then (if x < 249 then 0x15151500 else 0xe3e3e300) else (if x < 251 then 0xadadad00 else 0xf4f4f400)) else (if x < 254 then (if x < 253 then 0x77777700 else 0xc7c7c700) else (if x < 255 then 0x80808000 else 0x9e9e9e00))
  }

  function SP0222(x: bv8): bv32 {
    if x < 128 then
     if x < 64 then
      if x < 32 then
       if x < 16 then
        if x < 8 then
         if x < 4 then (if x < 2 then (if x < 1 then 0x00e0e0e0 else 0x00050505) else (if x < 3 then 0x00585858 else 0x00d9d9d9)) else (if x < 6 then (if x < 5 then 0x00676767 else 0x004e4e4e) else (if x < 7 then 0x00818181 else 0x00cbcbcb))
        else
         if x < 12 then (if x < 10 then (if x < 9 then 0x00c9c9c9 else 0x000b0b0b) else (if x < 11 then 0x00aeaeae else 0x006a6a6a)) else (if x < 14 then (if x < 13 then 0x00d5d5d5 else 0x00181818) else (if x < 15 then 0x005d5d5d else 0x00828282))
       else
        if x < 24 then
         if x < 20 then (if x < 18 then (if x < 17 then 0x00464646 else 0x00dfdfdf) else (if x < 19 then 0x00d6d6d6 else 0x00272727)) else (if x < 22 then (if x < 21 then 0x008a8a8a else 0x00323232) else (if x < 23 then 0x004b4b4b else 0x00424242))
        else
         if x < 28 then (if x < 26 then (if x < 25 then 0x00dbdbdb else 0x001c1c1c) else (if x < 27 then 0x009e9e9e else 0x009c9c9c)) else (if x < 30 then (if x < 29 then 0x003a3a3a else 0x00cacaca) else (if x < 31 then 0x00252525 else 0x007b7b7b))
      else
       if x < 48 then
        if x < 40 then
         if x < 36 then (if x < 34 then (if x < 33 then 0x000d0d0d else 0x00717171) else (if x < 35 then 0x005f5f5f else 0x001f1f1f)) else (if x < 38 then (if x < 37 then 0x00f8f8f8 else 0x00d7d7d7) else (if x < 39 then 0x003e3e3e else 0x009d9d9d))
        else
         if x < 44 then (if x < 42 then (if x < 41 then 0x007c7c7c else 0x00606060) else (if x < 43 then 0x00b9b9b9 else 0x00bebebe)) else (if x < 46 then (if x < 45 then 0x00bcbcbc else 0x008b8b8b) else (if x < 47 then 0x00161616 else 0x00343434))
       else
        if x < 56 then
         if x < 52 then (if x < 50 then (if x < 49 then 0x004d4d4d else 0x00c3c3c3) else (if x < 51 then 0x00727272 else 0x00959595)) else (if x < 54 then (if x < 53 then 0x00ababab else 0x008e8e8e) else (if x < 55 then 0x00bababa else 0x007a7a7a))
        else
         if x < 60 then (if x < 58 then (if x < 57 then 0x00b3b3b3 else 0x00020202) else (if x < 59 then 0x00b4b4b4 else 0x00adadad)) else (if x < 62 then (if x < 61 then 0x00a2a2a2 else 0x00acacac) else (if x < 63 then 0x00d8d8d8 else 0x009a9a9a))
     else
      if x < 96 then
       if x < 80 then
        if x < 72 then
         if x < 68 then (if x < 66 then (if x < 65 then 0x00171717 else 0x001a1a1a) else (if x < 67 then 0x00353535 else 0x00cccccc)) else (if x < 70 then (if x < 69 then 0x00f7f7f7 else 0x00999999) else (if x < 71 then 0x00616161 else 0x005a5a5a))
        else
         if x < 76 then (if x < 74 then (if x < 73 then 0x00e8e8e8 else 0x00242424) else (if x < 75 then 0x00565656 else 0x00404040)) else (if x < 78 then (if x < 77 then 0x00e1e1e1 else 0x00636363) else (if x < 79 then 0x00090909 else 0x00333333))
       else
        if x < 88 then
         if x < 84 then (if x < 82 then (if x < 81 then 0x00bfbfbf else 0x00989898) else (if x < 83 then 0x00979797 else 0x00858585)) else (if x < 86 then (if x < 85 then 0x00686868 else 0x00fcfcfc) else (if x < 87 then 0x00ececec else 0x000a0a0a))
        else
         if x < 92 then (if x < 90 then (if x < 89 then 0x00dadada else 0x006f6f6f) else (if x < 91 then 0x00535353 else 0x00626262)) else (if x < 94 then (if x < 93 then 0x00a3a3a3 else 0x002e2e2e) else (if x < 95 then 0x00080808 else 0x00afafaf))
      else
       if x < 112 then
        if x < 104 then
         if x < 100 then (if x < 98 then (if x < 97 then 0x00282828 else 0x00b0b0b0) else (if x < 99 then 0x00747474 else 0x00c2c2c2)) else (if x < 102 then (if x < 101 then 0x00bdbdbd else 0x00363636) else (if x < 103 then 0x00222222 else 0x00383838))
        else
         if x < 108 then (if x < 106 then (if x < 105 then 0x00646464 else 0x001e1e1e) else (if x < 107 then 0x00393939 else 0x002c2c2c)) else (if x < 110 then (if x < 109 then 0x00a6a6a6 else 0x00303030) else (if x < 111 then 0x00e5e5e5 else 0x00444444))
       else
        if x < 120 then
         if x < 116 then (if x < 114 then (if x < 113 then 0x00fdfdfd else 0x00888888) else (if x < 115 then 0x009f9f9f else 0x00656565)) else (if x < 118 then (if x < 117 then 0x00878787 else 0x006b6b6b) else (if x < 119 then 0x00f4f4f4 else 0x00232323))
        else
         if x < 124 then (if x < 122 then (if x < 121 then 0x00484848 else 0x00101010) else (if x < 123 then 0x00d1d1d1 else 0x00515151)) else (if x < 126 then (if x < 125 then 0x00c0c0c0 else 0x00f9f9f9) else (if x < 127 then 0x00d2d2d2 else 0x00a0a0a0))
    else
     if x < 192 then
      if x < 160 then
       if x < 144 then
        if x < 136 then
         if x < 132 then (if x < 130 then (if x < 129 then 0x00555555 else 0x00a1a1a1) else (if x < 131 then 0x00414141 else 0x00fafafa)) else (if x < 134 then (if x < 133 then 0x00434343 else 0x00131313) else (if x < 135 then 0x00c4c4c4 else 0x002f2f2f))
        else
         if x < 140 then (if x < 138 then (if x < 137 then 0x00a8a8a8 else 0x00b6b6b6) else (if x < 139 then 0x003c3c3c else 0x002b2b2b)) else (if x < 142 then (if x < 141 then 0x00c1c1c1 else 0x00ffffff) else (if x < 143 then 0x00c8c8c8 else 0x00a5a5a5))
       else
        if x < 152 then
         if x < 148 then (if x < 146 then (if x < 145 then 0x00202020 else 0x00898989) else (if x < 147 then 0x00000000 else 0x00909090)) else (if x < 150 then (if x < 149 then 0x00474747 else 0x00efefef) else (if x < 151 then 0x00eaeaea else 0x00b7b7b7))
        else
         if x < 156 then (if x < 154 then (if x < 153 then 0x00151515 else 0x00060606) else (if x < 155 then 0x00cdcdcd else 0x00b5b5b5)) else (if x < 158 then (if x < 157 then 0x00121212 else 0x007e7e7e) else (if x < 159 then 0x00bbbbbb else 0x00292929))
      else
       if x < 176 then
        if x < 168 then
         if x < 164 then (if x < 162 then (if x < 161 then 0x000f0f0f else 0x00b8b8b8) else (if x < 163 then 0x00070707 else 0x00040404)) else (if x < 166 then (if x < 165 then 0x009b9b9b else 0x00949494) else (if x < 167 then 0x00212121 else 0x00666666))
        else
         if x < 172 then (if x < 170 then (if x < 169 then 0x00e6e6e6 else 0x00cecece) else (if x < 171 then 0x00ededed else 0x00e7e7e7)) else (if x < 174 then (if x < 173 then 0x003b3b3b else 0x00fefefe) else (if x < 175 then 0x007f7f7f else 0x00c5c5c5))
       else
        if x < 184 then
         if x < 180 then (if x < 178 then (if x < 177 then 0x00a4a4a4 else 0x00373737) else (if x < 179 then 0x00b1b1b1 else 0x004c4c4c)) else (if x < 182 then (if x < 181 then 0x00919191 else 0x006e6e6e) else (if x < 183 then 0x008d8d8d else 0x00767676))
        else
         if x < 188 then (if x < 186 then (if x < 185 then 0x00030303 else 0x002d2d2d) else (if x < 187 then 0x00dedede else 0x00969696)) else (if x < 190 then (if x < 189 then 0x00262626 else 0x007d7d7d) else (if x < 191 then 0x00c6c6c6 else 0x005c5c5c))
     else
      if x < 224 then
       if x < 208 then
        if x < 200 then
         if x < 196 then (if x < 194 then (if x < 193 then 0x00d3d3d3 else 0x00f2f2f2) else (if x < 195 then 0x004f4f4f else 0x00191919)) else (if x < 198 then (if x < 197 then 0x003f3f3f else 0x00dcdcdc) else (if x < 199 then 0x00797979 else 0x001d1d1d))
        else
         if x < 204 then (if x < 202 then (if x < 201 then 0x00525252 else 0x00ebebeb) else (if x < 203 then 0x00f3f3f3 else 0x006d6d6d)) else (if x < 206 then (if x < 205 then 0x005e5e5e else 0x00fbfbfb) else (if x < 207 then 0x00696969 else 0x00b2b2b2))
       else
        if x < 216 then
         if x < 212 then (if x < 210 then (if x < 209 then 0x00f0f0f0 else 0x00313131) else (if x < 211 then 0x000c0c0c else 0x00d4d4d4)) else (if x < 214 then (if x < 213 then 0x00cfcfcf else 0x008c8c8c) else (if x < 215 then 0x00e2e2e2 else 0x00757575))
        else
         if x < 220 then (if x < 218 then (if x < 217 then 0x00a9a9a9 else 0x004a4a4a) else (if x < 219 then 0x00575757 else 0x00848484)) else (if x < 222 then (if x < 221 then 0x00111111 else 0x00454545) else (if x < 223 then 0x001b1b1b else 0x00f5f5f5))
      else
       if x < 240 then
        if x < 232 then
         if x < 228 then (if x < 226 then (if x < 225 then 0x00e4e4e4 else 0x000e0e0e) else (if x < 227 then 0x00737373 else 0x00aaaaaa)) else (if x < 230 then (if x < 229 then 0x00f1f1f1 else 0x00dddddd) else (if x < 231 then 0x00595959 else 0x00141414))
        else
         if x < 236 then (if x < 234 then (if x < 233 then 0x006c6c6c else 0x00929292) else (if x < 235 then 0x00545454 else 0x00d0d0d0)) else (if x < 238 then (if x < 237 then 0x00787878 else 0x00707070) else (if x < 239 then 0x00e3e3e3 else 0x00494949))
       else
        if x < 248 then
         if x < 244 then (if x < 242 then (if x < 241 then 0x00808080 else 0x00505050) else (if x < 243 then 0x00a7a7a7 else 0x00f6f6f6)) else (if x < 246 then (if x < 245 then 0x00777777 else 0x00939393) else (if x < 247 then 0x00868686 else 0x00838383))
        else
         if x < 252 then (if x < 250 then (if x < 249 then 0x002a2a2a else 0x00c7c7c7) else (if x < 251 then 0x005b5b5b else 0x00e9e9e9)) else (if x < 254 then (if x < 253 then 0x00eeeeee else 0x008f8f8f) else (if x < 255 then 0x00010101 else 0x003d3d3d))
  }

  function SP3033(x: bv8): bv32 {
    if x < 128 then
     if x < 64 then
      if x < 32 then
       if x < 16 then
        if x < 8 then
         if x < 4 then (if x < 2 then (if x < 1 then 0x38003838 else 0x41004141) else (if x < 3 then 0x16001616 else 0x76007676)) else (if x < 6 then (if x < 5 then 0xd900d9d9 else 0x93009393) else (if x < 7 then 0x60006060 else 0xf200f2f2))
        else
         if x < 12 then (if x < 10 then (if x < 9 then 0x72007272 else 0xc200c2c2) else (if x < 11 then 0xab00abab else 0x9a009a9a)) else (if x < 14 then (if x < 13 then 0x75007575 else 0x06000606) else (if x < 15 then 0x57005757 else 0xa000a0a0))
       else
        if x < 24 then
         if x < 20 then (if x < 18 then (if x < 17 then 0x91009191 else 0xf700f7f7) else (if x < 19 then 0xb500b5b5 else 0xc900c9c9)) else (if x < 22 then (if x < 21 then 0xa200a2a2 else 0x8c008c8c) else (if x < 23 then 0xd200d2d2 else 0x90009090))
        else
         if x < 28 then (if x < 26 then (if x < 25 then 0xf600f6f6 else 0x07000707) else (if x < 27 then 0xa700a7a7 else 0x27002727)) else (if x < 30 then (if x < 29 then 0x8e008e8e else 0xb200b2b2) else (if x < 31 then 0x49004949 else 0xde00dede))
      else
       if x < 48 then
        if x < 40 then
         if x < 36 then (if x < 34 then (if x < 33 then 0x43004343 else 0x5c005c5c) else (if x < 35 then 0xd700d7d7 else 0xc700c7c7)) else (if x < 38 then (if x < 37 then 0x3e003e3e else 0xf500f5f5) else (if x < 39 then 0x8f008f8f else 0x67006767))
        else
         if x < 44 then (if x < 42 then (if x < 41 then 0x1f001f1f else 0x18001818) else (if x < 43 then 0x6e006e6e else 0xaf00afaf)) else (if x < 46 then (if x < 45 then 0x2f002f2f else 0xe200e2e2) else (if x < 47 then 0x85008585 else 0x0d000d0d))
       else
        if x < 56 then
         if x < 52 then (if x < 50 then (if x < 49 then 0x53005353 else 0xf000f0f0) else (if x < 51 then 0x9c009c9c else 0x65006565)) else (if x < 54 then (if x < 53 then 0xea00eaea else 0xa300a3a3) else (if x < 55 then 0xae00aeae else 0x9e009e9e))
        else
         if x < 60 then (if x < 58 then (if x < 57 then 0xec00ecec else 0x80008080) else (if x < 59 then 0x2d002d2d else 0x6b006b6b)) else (if x < 62 then (if x < 61 then 0xa800a8a8 else 0x2b002b2b) else (if x < 63 then 0x36003636 else 0xa600a6a6))
     else
      if x < 96 then
       if x < 80 then
        if x < 72 then
         if x < 68 then (if x < 66 then (if x < 65 then 0xc500c5c5 else 0x86008686) else (if x < 67 then 0x4d004d4d else 0x33003333)) else (if x < 70 then (if x < 69 then 0xfd00fdfd else 0x66006666) else (if x < 71 then 0x58005858 else 0x96009696))
        else
         if x < 76 then (if x < 74 then (if x < 73 then 0x3a003a3a else 0x09000909) else (if x < 75 then 0x95009595 else 0x10001010)) else (if x < 78 then (if x < 77 then 0x78007878 else 0xd800d8d8) else (if x < 79 then 0x42004242 else 0xcc00cccc))
       else
        if x < 88 then
         if x < 84 then (if x < 82 then (if x < 81 then 0xef00efef else 0x26002626) else (if x < 83 then 0xe500e5e5 else 0x61006161)) else (if x < 86 then (if x < 85 then 0x1a001a1a else 0x3f003f3f) else (if x < 87 then 0x3b003b3b else 0x82008282))
        else
         if x < 92 then (if x < 90 then (if x < 89 then 0xb600b6b6 else 0xdb00dbdb) else (if x < 91 then 0xd400d4d4 else 0x98009898)) else (if x < 94 then (if x < 93 then 0xe800e8e8 else 0x8b008b8b) else (if x < 95 then 0x02000202 else 0xeb00ebeb))
      else
       if x < 112 then
        if x < 104 then
         if x < 100 then (if x < 98 then (if x < 97 then 0x0a000a0a else 0x2c002c2c) else (if x < 99 then 0x1d001d1d else 0xb000b0b0)) else (if x < 102 then (if x < 101 then 0x6f006f6f else 0x8d008d8d) else (if x < 103 then 0x88008888 else 0x0e000e0e))
        else
         if x < 108 then (if x < 106 then (if x < 105 then 0x19001919 else 0x87008787) else (if x < 107 then 0x4e004e4e else 0x0b000b0b)) else (if x < 110 then (if x < 109 then 0xa900a9a9 else 0x0c000c0c) else (if x < 111 then 0x79007979 else 0x11001111))
       else
        if x < 120 then
         if x < 116 then (if x < 114 then (if x < 113 then 0x7f007f7f else 0x22002222) else (if x < 115 then 0xe700e7e7 else 0x59005959)) else (if x < 118 then (if x < 117 then 0xe100e1e1 else 0xda00dada) else (if x < 119 then 0x3d003d3d else 0xc800c8c8))
        else
         if x < 124 then (if x < 122 then (if x < 121 then 0x12001212 else 0x04000404) else (if x < 123 then 0x74007474 else 0x54005454)) else (if x < 126 then (if x < 125 then 0x30003030 else 0x7e007e7e) else (if x < 127 then 0xb400b4b4 else 0x28002828))
    else
     if x < 192 then
      if x < 160 then
       if x < 144 then
        if x < 136 then
         if x < 132 then (if x < 130 then (if x < 129 then 0x55005555 else 0x68006868) else (if x < 131 then 0x50005050 else 0xbe00bebe)) else (if x < 134 then (if x < 133 then 0xd000d0d0 else 0xc400c4c4) else (if x < 135 then 0x31003131 else 0xcb00cbcb))
        else
         if x < 140 then (if x < 138 then (if x < 137 then 0x2a002a2a else 0xad00adad) else (if x < 139 then 0x0f000f0f else 0xca00caca)) else (if x < 142 then (if x < 141 then 0x70007070 else 0xff00ffff) else (if x < 143 then 0x32003232 else 0x69006969))
       else
        if x < 152 then
         if x < 148 then (if x < 146 then (if x < 145 then 0x08000808 else 0x62006262) else (if x < 147 then 0x00000000 else 0x24002424)) else (if x < 150 then (if x < 149 then 0xd100d1d1 else 0xfb00fbfb) else (if x < 151 then 0xba00baba else 0xed00eded))
        else
         if x < 156 then (if x < 154 then (if x < 153 then 0x45004545 else 0x81008181) else (if x < 155 then 0x73007373 else 0x6d006d6d)) else (if x < 158 then (if x < 157 then 0x84008484 else 0x9f009f9f) else (if x < 159 then 0xee00eeee else 0x4a004a4a))
      else
       if x < 176 then
        if x < 168 then
         if x < 164 then (if x < 162 then (if x < 161 then 0xc300c3c3 else 0x2e002e2e) else (if x < 163 then 0xc100c1c1 else 0x01000101)) else (if x < 166 then (if x < 165 then 0xe600e6e6 else 0x25002525) else (if x < 167 then 0x48004848 else 0x99009999))
        else
         if x < 172 then (if x < 170 then (if x < 169 then 0xb900b9b9 else 0xb300b3b3) else (if x < 171 then 0x7b007b7b else 0xf900f9f9)) else (if x < 174 then (if x < 173 then 0xce00cece else 0xbf00bfbf) else (if x < 175 then 0xdf00dfdf else 0x71007171))
       else
        if x < 184 then
         if x < 180 then (if x < 178 then (if x < 177 then 0x29002929 else 0xcd00cdcd) else (if x < 179 then 0x6c006c6c else 0x13001313)) else (if x < 182 then (if x < 181 then 0x64006464 else 0x9b009b9b) else (if x < 183 then 0x63006363 else 0x9d009d9d))
        else
         if x < 188 then (if x < 186 then (if x < 185 then 0xc000c0c0 else 0x4b004b4b) else (if x < 187 then 0xb700b7b7 else 0xa500a5a5)) else (if x < 190 then (if x < 189 then 0x89008989 else 0x5f005f5f) else (if x < 191 then 0xb100b1b1 else 0x17001717))
     else
      if x < 224 then
       if x < 208 then
        if x < 200 then
         if x < 196 then (if x < 194 then (if x < 193 then 0xf400f4f4 else 0xbc00bcbc) else (if x < 195 then 0xd300d3d3 else 0x46004646)) else (if x < 198 then (if x < 197 then 0xcf00cfcf else 0x37003737) else (if x < 199 then 0x5e005e5e else 0x47004747))
        else
         if x < 204 then (if x < 202 then (if x < 201 then 0x94009494 else 0xfa00fafa) else (if x < 203 then 0xfc00fcfc else 0x5b005b5b)) else (if x < 206 then (if x < 205 then 0x97009797 else 0xfe00fefe) else (if x < 207 then 0x5a005a5a else 0xac00acac))
       else
        if x < 216 then
         if x < 212 then (if x < 210 then (if x < 209 then 0x3c003c3c else 0x4c004c4c) else (if x < 211 then 0x03000303 else 0x35003535)) else (if x < 214 then (if x < 213 then 0xf300f3f3 else 0x23002323) else (if x < 215 then 0xb800b8b8 else 0x5d005d5d))
        else
         if x < 220 then (if x < 218 then (if x < 217 then 0x6a006a6a else 0x92009292) else (if x < 219 then 0xd500d5d5 else 0x21002121)) else (if x < 222 then (if x < 221 then 0x44004444 else 0x51005151) else (if x < 223 then 0xc600c6c6 else 0x7d007d7d))
      else
       if x < 240 then
        if x < 232 then
         if x < 228 then (if x < 226 then (if x < 225 then 0x39003939 else 0x83008383) else (if x < 227 then 0xdc00dcdc else 0xaa00aaaa)) else (if x < 230 then (if x < 229 then 0x7c007c7c else 0x77007777) else (if x < 231 then 0x56005656 else 0x05000505))
        else
         if x < 236 then (if x < 234 then (if x < 233 then 0x1b001b1b else 0xa400a4a4) else (if x < 235 then 0x15001515 else 0x34003434)) else (if x < 238 then (if x < 237 then 0x1e001e1e else 0x1c001c1c) else (if x < 239 then 0xf800f8f8 else 0x52005252))
       else
        if x < 248 then
         if x < 244 then (if x < 242 then (if x < 241 then 0x20002020 else 0x14001414) else (if x < 243 then 0xe900e9e9 else 0xbd00bdbd)) else (if x < 246 then (if x < 245 then 0xdd00dddd else 0xe400e4e4) else (if x < 247 then 0xa100a1a1 else 0xe000e0e0))
        else
         if x < 252 then (if x < 250 then (if x < 249 then 0x8a008a8a else 0xf100f1f1) else (if x < 251 then 0xd600d6d6 else 0x7a007a7a)) else (if x < 254 then (if x < 253 then 0xbb00bbbb else 0xe300e3e3) else (if x < 255 then 0x40004040 else 0x4f004f4f))
  }

  function SP4404(x: bv8): bv32 {
    if x < 128 then
     if x < 64 then
      if x < 32 then
       if x < 16 then
        if x < 8 then
         if x < 4 then (if x < 2 then (if x < 1 then 0x70700070 else 0x2c2c002c) else (if x < 3 then 0xb3b300b3 else 0xc0c000c0)) else (if x < 6 then (if x < 5 then 0xe4e400e4 else 0x57570057) else (if x < 7 then 0xeaea00ea else 0xaeae00ae))
        else
         if x < 12 then (if x < 10 then (if x < 9 then 0x23230023 else 0x6b6b006b) else (if x < 11 then 0x45450045 else 0xa5a500a5)) else (if x < 14 then (if x < 13 then 0xeded00ed else 0x4f4f004f) else (if x < 15 then 0x1d1d001d else 0x92920092))
       else
        if x < 24 then
         if x < 20 then (if x < 18 then (if x < 17 then 0x86860086 else 0xafaf00af) else (if x < 19 then 0x7c7c007c else 0x1f1f001f)) else (if x < 22 then (if x < 21 then 0x3e3e003e else 0xdcdc00dc) else (if x < 23 then 0x5e5e005e else 0x0b0b000b))
        else
         if x < 28 then (if x < 26 then (if x < 25 then 0xa6a600a6 else 0x39390039) else (if x < 27 then 0xd5d500d5 else 0x5d5d005d)) else (if x < 30 then (if x < 29 then 0xd9d900d9 else 0x5a5a005a) else (if x < 31 then 0x51510051 else 0x6c6c006c))
      else
       if x < 48 then
        if x < 40 then
         if x < 36 then (if x < 34 then (if x < 33 then 0x8b8b008b else 0x9a9a009a) else (if x < 35 then 0xfbfb00fb else 0xb0b000b0)) else (if x < 38 then (if x < 37 then 0x74740074 else 0x2b2b002b) else (if x < 39 then 0xf0f000f0 else 0x84840084))
        else
         if x < 44 then (if x < 42 then (if x < 41 then 0xdfdf00df else 0xcbcb00cb) else (if x < 43 then 0x34340034 else 0x76760076)) else (if x < 46 then (if x < 45 then 0x6d6d006d else 0xa9a900a9) else (if x < 47 then 0xd1d100d1 else 0x04040004))
       else
        if x < 56 then
         if x < 52 then (if x < 50 then (if x < 49 then 0x14140014 else 0x3a3a003a) else (if x < 51 then 0xdede00de else 0x11110011)) else (if x < 54 then (if x < 53 then 0x32320032 else 0x9c9c009c) else (if x < 55 then 0x53530053 else 0xf2f200f2))
        else
         if x < 60 then (if x < 58 then (if x < 57 then 0xfefe00fe else 0xcfcf00cf) else (if x < 59 then 0xc3c300c3 else 0x7a7a007a)) else (if x < 62 then (if x < 61 then 0x24240024 else 0xe8e800e8) else (if x < 63 then 0x60600060 else 0x69690069))
     else
      if x < 96 then
       if x < 80 then
        if x < 72 then
         if x < 68 then (if x < 66 then (if x < 65 then 0xaaaa00aa else 0xa0a000a0) else (if x < 67 then 0xa1a100a1 else 0x62620062)) else (if x < 70 then (if x < 69 then 0x54540054 else 0x1e1e001e) else (if x < 71 then 0xe0e000e0 else 0x64640064))
        else
         if x < 76 then (if x < 74 then (if x < 73 then 0x10100010 else 0x00000000) else (if x < 75 then 0xa3a300a3 else 0x75750075)) else (if x < 78 then (if x < 77 then 0x8a8a008a else 0xe6e600e6) else (if x < 79 then 0x09090009 else 0xdddd00dd))
       else
        if x < 88 then
         if x < 84 then (if x < 82 then (if x < 81 then 0x87870087 else 0x83830083) else (if x < 83 then 0xcdcd00cd else 0x90900090)) else (if x < 86 then (if x < 85 then 0x73730073 else 0xf6f600f6) else (if x < 87 then 0x9d9d009d else 0xbfbf00bf))
        else
         if x < 92 then (if x < 90 then (if x < 89 then 0x52520052 else 0xd8d800d8) else (if x < 91 then 0xc8c800c8 else 0xc6c600c6)) else (if x < 94 then (if x < 93 then 0x81810081 else 0x6f6f006f) else (if x < 95 then 0x13130013 else 0x63630063))
      else
       if x < 112 then
        if x < 104 then
         if x < 100 then (if x < 98 then (if x < 97 then 0xe9e900e9 else 0xa7a700a7) else (if x < 99 then 0x9f9f009f else 0xbcbc00bc)) else (if x < 102 then (if x < 101 then 0x29290029 else 0xf9f900f9) else (if x < 103 then 0x2f2f002f else 0xb4b400b4))
        else
         if x < 108 then (if x < 106 then (if x < 105 then 0x78780078 else 0x06060006) else (if x < 107 then 0xe7e700e7 else 0x71710071)) else (if x < 110 then (if x < 109 then 0xd4d400d4 else 0xabab00ab) else (if x < 111 then 0x88880088 else 0x8d8d008d))
       else
        if x < 120 then
         if x < 116 then (if x < 114 then (if x < 113 then 0x72720072 else 0xb9b900b9) else (if x < 115 then 0xf8f800f8 else 0xacac00ac)) else (if x < 118 then (if x < 117 then 0x36360036 else 0x2a2a002a) else (if x < 119 then 0x3c3c003c else 0xf1f100f1))
        else
         if x < 124 then (if x < 122 then (if x < 121 then 0x40400040 else 0xd3d300d3) else (if x < 123 then 0xbbbb00bb else 0x43430043)) else (if x < 126 then (if x < 125 then 0x15150015 else 0xadad00ad) else (if x < 127 then 0x77770077 else 0x80800080))
    else
     if x < 192 then
      if x < 160 then
       if x < 144 then
        if x < 136 then
         if x < 132 then (if x < 130 then (if x < 129 then 0x82820082 else 0xecec00ec) else (if x < 131 then 0x27270027 else 0xe5e500e5)) else (if x < 134 then (if x < 133 then 0x85850085 else 0x35350035) else (if x < 135 then 0x0c0c000c else 0x41410041))
        else
         if x < 140 then (if x < 138 then (if x < 137 then 0xefef00ef else 0x93930093) else (if x < 139 then 0x19190019 else 0x21210021)) else (if x < 142 then (if x < 141 then 0x0e0e000e else 0x4e4e004e) else (if x < 143 then 0x65650065 else 0xbdbd00bd))
       else
        if x < 152 then
         if x < 148 then (if x < 146 then (if x < 145 then 0xb8b800b8 else 0x8f8f008f) else (if x < 147 then 0xebeb00eb else 0xcece00ce)) else (if x < 150 then (if x < 149 then 0x30300030 else 0x5f5f005f) else (if x < 151 then 0xc5c500c5 else 0x1a1a001a))
        else
         if x < 156 then (if x < 154 then (if x < 153 then 0xe1e100e1 else 0xcaca00ca) else (if x < 155 then 0x47470047 else 0x3d3d003d)) else (if x < 158 then (if x < 157 then 0x01010001 else 0xd6d600d6) else (if x < 159 then 0x56560056 else 0x4d4d004d))
      else
       if x < 176 then
        if x < 168 then
         if x < 164 then (if x < 162 then (if x < 161 then 0x0d0d000d else 0x66660066) else (if x < 163 then 0xcccc00cc else 0x2d2d002d)) else (if x < 166 then (if x < 165 then 0x12120012 else 0x20200020) else (if x < 167 then 0xb1b100b1 else 0x99990099))
        else
         if x < 172 then (if x < 170 then (if x < 169 then 0x4c4c004c else 0xc2c200c2) else (if x < 171 then 0x7e7e007e else 0x05050005)) else (if x < 174 then (if x < 173 then 0xb7b700b7 else 0x31310031) else (if x < 175 then 0x17170017 else 0xd7d700d7))
       else
        if x < 184 then
         if x < 180 then (if x < 178 then (if x < 177 then 0x58580058 else 0x61610061) else (if x < 179 then 0x1b1b001b else 0x1c1c001c)) else (if x < 182 then (if x < 181 then 0x0f0f000f else 0x16160016) else (if x < 183 then 0x18180018 else 0x22220022))
        else
         if x < 188 then (if x < 186 then (if x < 185 then 0x44440044 else 0xb2b200b2) else (if x < 187 then 0xb5b500b5 else 0x91910091)) else (if x < 190 then (if x < 189 then 0x08080008 else 0xa8a800a8) else (if x < 191 then 0xfcfc00fc else 0x50500050))
     else
      if x < 224 then
       if x < 208 then
        if x < 200 then
         if x < 196 then (if x < 194 then (if x < 193 then 0xd0d000d0 else 0x7d7d007d) else (if x < 195 then 0x89890089 else 0x97970097)) else (if x < 198 then (if x < 197 then 0x5b5b005b else 0x95950095) else (if x < 199 then 0xffff00ff else 0xd2d200d2))
        else
         if x < 204 then (if x < 202 then (if x < 201 then 0xc4c400c4 else 0x48480048) else (if x < 203 then 0xf7f700f7 else 0xdbdb00db)) else (if x < 206 then (if x < 205 then 0x03030003 else 0xdada00da) else (if x < 207 then 0x3f3f003f else 0x94940094))
       else
        if x < 216 then
         if x < 212 then (if x < 210 then (if x < 209 then 0x5c5c005c else 0x02020002) else (if x < 211 then 0x4a4a004a else 0x33330033)) else (if x < 214 then (if x < 213 then 0x67670067 else 0xf3f300f3) else (if x < 215 then 0x7f7f007f else 0xe2e200e2))
        else
         if x < 220 then (if x < 218 then (if x < 217 then 0x9b9b009b else 0x26260026) else (if x < 219 then 0x37370037 else 0x3b3b003b)) else (if x < 222 then (if x < 221 then 0x96960096 else 0x4b4b004b) else (if x < 223 then 0xbebe00be else 0x2e2e002e))
      else
       if x < 240 then
        if x < 232 then
         if x < 228 then (if x < 226 then (if x < 225 then 0x79790079 else 0x8c8c008c) else (if x < 227 then 0x6e6e006e else 0x8e8e008e)) else (if x < 230 then (if x < 229 then 0xf5f500f5 else 0xb6b600b6) else (if x < 231 then 0xfdfd00fd else 0x59590059))
        else
         if x < 236 then (if x < 234 then (if x < 233 then 0x98980098 else 0x6a6a006a) else (if x < 235 then 0x46460046 else 0xbaba00ba)) else (if x < 238 then (if x < 237 then 0x25250025 else 0x42420042) else (if x < 239 then 0xa2a200a2 else 0xfafa00fa))
       else
        if x < 248 then
         if x < 244 then (if x < 242 then (if x < 241 then 0x07070007 else 0x55550055) else (if x < 243 then 0xeeee00ee else 0x0a0a000a)) else (if x < 246 then (if x < 245 then 0x49490049 else 0x68680068) else (if x < 247 then 0x38380038 else 0xa4a400a4))
        else
         if x < 252 then (if x < 250 then (if x < 249 then 0x28280028 else 0x7b7b007b) else (if x < 251 then 0xc9c900c9 else 0xc1c100c1)) else (if x < 254 then (if x < 253 then 0xe3e300e3 else 0xf4f400f4) else (if x < 255 then 0xc7c700c7 else 0x9e9e009e))
  }

  function Pack(b0: bv8, b1: bv8, b2: bv8, b3: bv8): bv32 {
    ((b0 as bv32) << 24) | ((b1 as bv32) << 16) | ((b2 as bv32) << 8) | (b3 as bv32)
  }

  function Rol8(x: bv8, n: bv4): bv8
    requires n <= 8
  {
    (x << n) | (x >> (8 - n))
  }

  function S1(x: bv8): bv8 { ((SP1110(x) >> 24) & 0xff) as bv8 }

  function S2(x: bv8): bv8 { Rol8(S1(x), 1) }

  function S3(x: bv8): bv8 { Rol8(S1(x), 7) }

  function S4(x: bv8): bv8 { S1(Rol8(x, 1)) }

  predicate RowsRepeat(x: bv8) {
    && SP1110(x) == Pack(S1(x), S1(x), S1(x), 0)
    && SP0222(x) == Pack(0, S2(x), S2(x), S2(x))
    && SP3033(x) == Pack(S3(x), 0, S3(x), S3(x))
  }

  predicate FourthRepeats(x: bv8) {
    SP4404(x) == Pack(S4(x), S4(x), 0, S4(x))
  }

  lemma RowsBelow32(x: bv8)
    requires x < 32
    ensures RowsRepeat(x)
  {
  }

  lemma RowsBelow64(x: bv8)
    requires 32 <= x < 64
    ensures RowsRepeat(x)
  {
  }

  lemma RowsBelow96(x: bv8)
    requires 64 <= x < 96
    ensures RowsRepeat(x)
  {
  }

  lemma RowsBelow128(x: bv8)
    requires 96 <= x < 128
    ensures RowsRepeat(x)
  {
  }

  lemma RowsBelow160(x: bv8)
    requires 128 <= x < 160
    ensures RowsRepeat(x)
  {
  }

  lemma RowsBelow192(x: bv8)
    requires 160 <= x < 192
    ensures RowsRepeat(x)
  {
  }

  lemma RowsBelow224(x: bv8)
    requires 192 <= x < 224
    ensures RowsRepeat(x)
  {
  }

  lemma RowsBelow256(x: bv8)
    requires x >= 224
    ensures RowsRepeat(x)
  {
  }

  lemma FourthBelow32(x: bv8)
    requires x < 32
    ensures FourthRepeats(x)
  {
  }

  lemma FourthBelow64(x: bv8)
    requires 32 <= x < 64
    ensures FourthRepeats(x)
  {
  }

  lemma FourthBelow96(x: bv8)
    requires 64 <= x < 96
    ensures FourthRepeats(x)
  {
  }

  lemma FourthBelow128(x: bv8)
    requires 96 <= x < 128
    ensures FourthRepeats(x)
  {
  }

  lemma FourthBelow160(x: bv8)
    requires 128 <= x < 160
    ensures FourthRepeats(x)
  {
  }

  lemma FourthBelow192(x: bv8)
    requires 160 <= x < 192
    ensures FourthRepeats(x)
  {
  }

  lemma FourthBelow224(x: bv8)
    requires 192 <= x < 224
    ensures FourthRepeats(x)
  {
  }

  lemma FourthBelow256(x: bv8)
    requires x >= 224
    ensures FourthRepeats(x)
  {
  }

  lemma Rows(x: bv8)
    ensures RowsRepeat(x) && FourthRepeats(x)
  {
    hide RowsRepeat, FourthRepeats;
    if x < 32 {
      RowsBelow32(x);
      FourthBelow32(x);
    } else if x < 64 {
      RowsBelow64(x);
      FourthBelow64(x);
    } else if x < 96 {
      RowsBelow96(x);
      FourthBelow96(x);
    } else if x < 128 {
      RowsBelow128(x);
      FourthBelow128(x);
    } else if x < 160 {
      RowsBelow160(x);
      FourthBelow160(x);
    } else if x < 192 {
      RowsBelow192(x);
      FourthBelow192(x);
    } else if x < 224 {
      RowsBelow224(x);
      FourthBelow224(x);
    } else {
      RowsBelow256(x);
      FourthBelow256(x);
    }
  }
}
