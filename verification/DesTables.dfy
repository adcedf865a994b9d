/** The tables des_ip and des_fp of des.c, one look-up function for each of the eight byte positions. */
module DesTables {

  function Ip0(x: bv8): bv64 {
    if x < 128 then
     if x < 64 then
      if x < 32 then
       if x < 16 then
        if x < 8 then
         if x < 4 then
          if x < 2 then (if x < 1 then 0x0000000000000000 else 0x0000001000000000) else (if x < 3 then 0x0000000000000010 else 0x0000001000000010)
         else
          if x < 6 then (if x < 5 then 0x0000100000000000 else 0x0000101000000000) else (if x < 7 then 0x0000100000000010 else 0x0000101000000010)
        else
         if x < 12 then
          if x < 10 then (if x < 9 then 0x0000000000001000 else 0x0000001000001000) else (if x < 11 then 0x0000000000001010 else 0x0000001000001010)
         else
          if x < 14 then (if x < 13 then 0x0000100000001000 else 0x0000101000001000) else (if x < 15 then 0x0000100000001010 else 0x0000101000001010)
       else
        if x < 24 then
         if x < 20 then
          if x < 18 then (if x < 17 then 0x0010000000000000 else 0x0010001000000000) else (if x < 19 then 0x0010000000000010 else 0x0010001000000010)
         else
          if x < 22 then (if x < 21 then 0x0010100000000000 else 0x0010101000000000) else (if x < 23 then 0x0010100000000010 else 0x0010101000000010)
        else
         if x < 28 then
          if x < 26 then (if x < 25 then 0x0010000000001000 else 0x0010001000001000) else (if x < 27 then 0x0010000000001010 else 0x0010001000001010)
         else
          if x < 30 then (if x < 29 then 0x0010100000001000 else 0x0010101000001000) else (if x < 31 then 0x0010100000001010 else 0x0010101000001010)
      else
       if x < 48 then
        if x < 40 then
         if x < 36 then
          if x < 34 then (if x < 33 then 0x0000000000100000 else 0x0000001000100000) else (if x < 35 then 0x0000000000100010 else 0x0000001000100010)
         else
          if x < 38 then (if x < 37 then 0x0000100000100000 else 0x0000101000100000) else (if x < 39 then 0x0000100000100010 else 0x0000101000100010)
        else
         if x < 44 then
          if x < 42 then (if x < 41 then 0x0000000000101000 else 0x0000001000101000) else (if x < 43 then 0x0000000000101010 else 0x0000001000101010)
         else
          if x < 46 then (if x < 45 then 0x0000100000101000 else 0x0000101000101000) else (if x < 47 then 0x0000100000101010 else 0x0000101000101010)
       else
        if x < 56 then
         if x < 52 then
          if x < 50 then (if x < 49 then 0x0010000000100000 else 0x0010001000100000) else (if x < 51 then 0x0010000000100010 else 0x0010001000100010)
         else
          if x < 54 then (if x < 53 then 0x0010100000100000 else 0x0010101000100000) else (if x < 55 then 0x0010100000100010 else 0x0010101000100010)
        else
         if x < 60 then
          if x < 58 then (if x < 57 then 0x0010000000101000 else 0x0010001000101000) else (if x < 59 then 0x0010000000101010 else 0x0010001000101010)
         else
          if x < 62 then (if x < 61 then 0x0010100000101000 else 0x0010101000101000) else (if x < 63 then 0x0010100000101010 else 0x0010101000101010)
     else
      if x < 96 then
       if x < 80 then
        if x < 72 then
         if x < 68 then
          if x < 66 then (if x < 65 then 0x1000000000000000 else 0x1000001000000000) else (if x < 67 then 0x1000000000000010 else 0x1000001000000010)
         else
          if x < 70 then (if x < 69 then 0x1000100000000000 else 0x1000101000000000) else (if x < 71 then 0x1000100000000010 else 0x1000101000000010)
        else
         if x < 76 then
          if x < 74 then (if x < 73 then 0x1000000000001000 else 0x1000001000001000) else (if x < 75 then 0x1000000000001010 else 0x1000001000001010)
         else
          if x < 78 then (if x < 77 then 0x1000100000001000 else 0x1000101000001000) else (if x < 79 then 0x1000100000001010 else 0x1000101000001010)
       else
        if x < 88 then
         if x < 84 then
          if x < 82 then (if x < 81 then 0x1010000000000000 else 0x1010001000000000) else (if x < 83 then 0x1010000000000010 else 0x1010001000000010)
         else
          if x < 86 then (if x < 85 then 0x1010100000000000 else 0x1010101000000000) else (if x < 87 then 0x1010100000000010 else 0x1010101000000010)
        else
         if x < 92 then
          if x < 90 then (if x < 89 then 0x1010000000001000 else 0x1010001000001000) else (if x < 91 then 0x1010000000001010 else 0x1010001000001010)
         else
          if x < 94 then (if x < 93 then 0x1010100000001000 else 0x1010101000001000) else (if x < 95 then 0x1010100000001010 else 0x1010101000001010)
      else
       if x < 112 then
        if x < 104 then
         if x < 100 then
          if x < 98 then (if x < 97 then 0x1000000000100000 else 0x1000001000100000) else (if x < 99 then 0x1000000000100010 else 0x1000001000100010)
         else
          if x < 102 then (if x < 101 then 0x1000100000100000 else 0x1000101000100000) else (if x < 103 then 0x1000100000100010 else 0x1000101000100010)
        else
         if x < 108 then
          if x < 106 then (if x < 105 then 0x1000000000101000 else 0x1000001000101000) else (if x < 107 then 0x1000000000101010 else 0x1000001000101010)
         else
          if x < 110 then (if x < 109 then 0x1000100000101000 else 0x1000101000101000) else (if x < 111 then 0x1000100000101010 else 0x1000101000101010)
       else
        if x < 120 then
         if x < 116 then
          if x < 114 then (if x < 113 then 0x1010000000100000 else 0x1010001000100000) else (if x < 115 then 0x1010000000100010 else 0x1010001000100010)
         else
          if x < 118 then (if x < 117 then 0x1010100000100000 else 0x1010101000100000) else (if x < 119 then 0x1010100000100010 else 0x1010101000100010)
        else
         if x < 124 then
          if x < 122 then (if x < 121 then 0x1010000000101000 else 0x1010001000101000) else (if x < 123 then 0x1010000000101010 else 0x1010001000101010)
         else
          if x < 126 then (if x < 125 then 0x1010100000101000 else 0x1010101000101000) else (if x < 127 then 0x1010100000101010 else 0x1010101000101010)
    else
     if x < 192 then
      if x < 160 then
       if x < 144 then
        if x < 136 then
         if x < 132 then
          if x < 130 then (if x < 129 then 0x0000000010000000 else 0x0000001010000000) else (if x < 131 then 0x0000000010000010 else 0x0000001010000010)
         else
          if x < 134 then (if x < 133 then 0x0000100010000000 else 0x0000101010000000) else (if x < 135 then 0x0000100010000010 else 0x0000101010000010)
        else
         if x < 140 then
          if x < 138 then (if x < 137 then 0x0000000010001000 else 0x0000001010001000) else (if x < 139 then 0x0000000010001010 else 0x0000001010001010)
         else
          if x < 142 then (if x < 141 then 0x0000100010001000 else 0x0000101010001000) else (if x < 143 then 0x0000100010001010 else 0x0000101010001010)
       else
        if x < 152 then
         if x < 148 then
          if x < 146 then (if x < 145 then 0x0010000010000000 else 0x0010001010000000) else (if x < 147 then 0x0010000010000010 else 0x0010001010000010)
         else
          if x < 150 then (if x < 149 then 0x0010100010000000 else 0x0010101010000000) else (if x < 151 then 0x0010100010000010 else 0x0010101010000010)
        else
         if x < 156 then
          if x < 154 then (if x < 153 then 0x0010000010001000 else 0x0010001010001000) else (if x < 155 then 0x0010000010001010 else 0x0010001010001010)
         else
          if x < 158 then (if x < 157 then 0x0010100010001000 else 0x0010101010001000) else (if x < 159 then 0x0010100010001010 else 0x0010101010001010)
      else
       if x < 176 then
        if x < 168 then
         if x < 164 then
          if x < 162 then (if x < 161 then 0x0000000010100000 else 0x0000001010100000) else (if x < 163 then 0x0000000010100010 else 0x0000001010100010)
         else
          if x < 166 then (if x < 165 then 0x0000100010100000 else 0x0000101010100000) else (if x < 167 then 0x0000100010100010 else 0x0000101010100010)
        else
         if x < 172 then
          if x < 170 then (if x < 169 then 0x0000000010101000 else 0x0000001010101000) else (if x < 171 then 0x0000000010101010 else 0x0000001010101010)
         else
          if x < 174 then (if x < 173 then 0x0000100010101000 else 0x0000101010101000) else (if x < 175 then 0x0000100010101010 else 0x0000101010101010)
       else
        if x < 184 then
         if x < 180 then
          if x < 178 then (if x < 177 then 0x0010000010100000 else 0x0010001010100000) else (if x < 179 then 0x0010000010100010 else 0x0010001010100010)
         else
          if x < 182 then (if x < 181 then 0x0010100010100000 else 0x0010101010100000) else (if x < 183 then 0x0010100010100010 else 0x0010101010100010)
        else
         if x < 188 then
          if x < 186 then (if x < 185 then 0x0010000010101000 else 0x0010001010101000) else (if x < 187 then 0x0010000010101010 else 0x0010001010101010)
         else
          if x < 190 then (if x < 189 then 0x0010100010101000 else 0x0010101010101000) else (if x < 191 then 0x0010100010101010 else 0x0010101010101010)
     else
      if x < 224 then
       if x < 208 then
        if x < 200 then
         if x < 196 then
          if x < 194 then (if x < 193 then 0x1000000010000000 else 0x1000001010000000) else (if x < 195 then 0x1000000010000010 else 0x1000001010000010)
         else
          if x < 198 then (if x < 197 then 0x1000100010000000 else 0x1000101010000000) else (if x < 199 then 0x1000100010000010 else 0x1000101010000010)
        else
         if x < 204 then
          if x < 202 then (if x < 201 then 0x1000000010001000 else 0x1000001010001000) else (if x < 203 then 0x1000000010001010 else 0x1000001010001010)
         else
          if x < 206 then (if x < 205 then 0x1000100010001000 else 0x1000101010001000) else (if x < 207 then 0x1000100010001010 else 0x1000101010001010)
       else
        if x < 216 then
         if x < 212 then
          if x < 210 then (if x < 209 then 0x1010000010000000 else 0x1010001010000000) else (if x < 211 then 0x1010000010000010 else 0x1010001010000010)
         else
          if x < 214 then (if x < 213 then 0x1010100010000000 else 0x1010101010000000) else (if x < 215 then 0x1010100010000010 else 0x1010101010000010)
        else
         if x < 220 then
          if x < 218 then (if x < 217 then 0x1010000010001000 else 0x1010001010001000) else (if x < 219 then 0x1010000010001010 else 0x1010001010001010)
         else
          if x < 222 then (if x < 221 then 0x1010100010001000 else 0x1010101010001000) else (if x < 223 then 0x1010100010001010 else 0x1010101010001010)
      else
       if x < 240 then
        if x < 232 then
         if x < 228 then
          if x < 226 then (if x < 225 then 0x1000000010100000 else 0x1000001010100000) else (if x < 227 then 0x1000000010100010 else 0x1000001010100010)
         else
          if x < 230 then (if x < 229 then 0x1000100010100000 else 0x1000101010100000) else (if x < 231 then 0x1000100010100010 else 0x1000101010100010)
        else
         if x < 236 then
          if x < 234 then (if x < 233 then 0x1000000010101000 else 0x1000001010101000) else (if x < 235 then 0x1000000010101010 else 0x1000001010101010)
         else
          if x < 238 then (if x < 237 then 0x1000100010101000 else 0x1000101010101000) else (if x < 239 then 0x1000100010101010 else 0x1000101010101010)
       else
        if x < 248 then
         if x < 244 then
          if x < 242 then (if x < 241 then 0x1010000010100000 else 0x1010001010100000) else (if x < 243 then 0x1010000010100010 else 0x1010001010100010)
         else
          if x < 246 then (if x < 245 then 0x1010100010100000 else 0x1010101010100000) else (if x < 247 then 0x1010100010100010 else 0x1010101010100010)
        else
         if x < 252 then
          if x < 250 then (if x < 249 then 0x1010000010101000 else 0x1010001010101000) else (if x < 251 then 0x1010000010101010 else 0x1010001010101010)
         else
          if x < 254 then (if x < 253 then 0x1010100010101000 else 0x1010101010101000) else (if x < 255 then 0x1010100010101010 else 0x1010101010101010)
  }

  function Ip1(x: bv8): bv64 {
    if x < 128 then
     if x < 64 then
      if x < 32 then
       if x < 16 then
        if x < 8 then
         if x < 4 then
          if x < 2 then (if x < 1 then 0x0000000000000000 else 0x0000000800000000) else (if x < 3 then 0x0000000000000008 else 0x0000000800000008)
         else
          if x < 6 then (if x < 5 then 0x0000080000000000 else 0x0000080800000000) else (if x < 7 then 0x0000080000000008 else 0x0000080800000008)
        else
         if x < 12 then
          if x < 10 then (if x < 9 then 0x0000000000000800 else 0x0000000800000800) else (if x < 11 then 0x0000000000000808 else 0x0000000800000808)
         else
          if x < 14 then (if x < 13 then 0x0000080000000800 else 0x0000080800000800) else (if x < 15 then 0x0000080000000808 else 0x0000080800000808)
       else
        if x < 24 then
         if x < 20 then
          if x < 18 then (if x < 17 then 0x0008000000000000 else 0x0008000800000000) else (if x < 19 then 0x0008000000000008 else 0x0008000800000008)
         else
          if x < 22 then (if x < 21 then 0x0008080000000000 else 0x0008080800000000) else (if x < 23 then 0x0008080000000008 else 0x0008080800000008)
        else
         if x < 28 then
          if x < 26 then (if x < 25 then 0x0008000000000800 else 0x0008000800000800) else (if x < 27 then 0x0008000000000808 else 0x0008000800000808)
         else
          if x < 30 then (if x < 29 then 0x0008080000000800 else 0x0008080800000800) else (if x < 31 then 0x0008080000000808 else 0x0008080800000808)
      else
       if x < 48 then
        if x < 40 then
         if x < 36 then
          if x < 34 then (if x < 33 then 0x0000000000080000 else 0x0000000800080000) else (if x < 35 then 0x0000000000080008 else 0x0000000800080008)
         else
          if x < 38 then (if x < 37 then 0x0000080000080000 else 0x0000080800080000) else (if x < 39 then 0x0000080000080008 else 0x0000080800080008)
        else
         if x < 44 then
          if x < 42 then (if x < 41 then 0x0000000000080800 else 0x0000000800080800) else (if x < 43 then 0x0000000000080808 else 0x0000000800080808)
         else
          if x < 46 then (if x < 45 then 0x0000080000080800 else 0x0000080800080800) else (if x < 47 then 0x0000080000080808 else 0x0000080800080808)
       else
        if x < 56 then
         if x < 52 then
          if x < 50 then (if x < 49 then 0x0008000000080000 else 0x0008000800080000) else (if x < 51 then 0x0008000000080008 else 0x0008000800080008)
         else
          if x < 54 then (if x < 53 then 0x0008080000080000 else 0x0008080800080000) else (if x < 55 then 0x0008080000080008 else 0x0008080800080008)
        else
         if x < 60 then
          if x < 58 then (if x < 57 then 0x0008000000080800 else 0x0008000800080800) else (if x < 59 then 0x0008000000080808 else 0x0008000800080808)
         else
          if x < 62 then (if x < 61 then 0x0008080000080800 else 0x0008080800080800) else (if x < 63 then 0x0008080000080808 else 0x0008080800080808)
     else
      if x < 96 then
       if x < 80 then
        if x < 72 then
         if x < 68 then
          if x < 66 then (if x < 65 then 0x0800000000000000 else 0x0800000800000000) else (if x < 67 then 0x0800000000000008 else 0x0800000800000008)
         else
          if x < 70 then (if x < 69 then 0x0800080000000000 else 0x0800080800000000) else (if x < 71 then 0x0800080000000008 else 0x0800080800000008)
        else
         if x < 76 then
          if x < 74 then (if x < 73 then 0x0800000000000800 else 0x0800000800000800) else (if x < 75 then 0x0800000000000808 else 0x0800000800000808)
         else
          if x < 78 then (if x < 77 then 0x0800080000000800 else 0x0800080800000800) else (if x < 79 then 0x0800080000000808 else 0x0800080800000808)
       else
        if x < 88 then
         if x < 84 then
          if x < 82 then (if x < 81 then 0x0808000000000000 else 0x0808000800000000) else (if x < 83 then 0x0808000000000008 else 0x0808000800000008)
         else
          if x < 86 then (if x < 85 then 0x0808080000000000 else 0x0808080800000000) else (if x < 87 then 0x0808080000000008 else 0x0808080800000008)
        else
         if x < 92 then
          if x < 90 then (if x < 89 then 0x0808000000000800 else 0x0808000800000800) else (if x < 91 then 0x0808000000000808 else 0x0808000800000808)
         else
          if x < 94 then (if x < 93 then 0x0808080000000800 else 0x0808080800000800) else (if x < 95 then 0x0808080000000808 else 0x0808080800000808)
      else
       if x < 112 then
        if x < 104 then
         if x < 100 then
          if x < 98 then (if x < 97 then 0x0800000000080000 else 0x0800000800080000) else (if x < 99 then 0x0800000000080008 else 0x0800000800080008)
         else
          if x < 102 then (if x < 101 then 0x0800080000080000 else 0x0800080800080000) else (if x < 103 then 0x0800080000080008 else 0x0800080800080008)
        else
         if x < 108 then
          if x < 106 then (if x < 105 then 0x0800000000080800 else 0x0800000800080800) else (if x < 107 then 0x0800000000080808 else 0x0800000800080808)
         else
          if x < 110 then (if x < 109 then 0x0800080000080800 else 0x0800080800080800) else (if x < 111 then 0x0800080000080808 else 0x0800080800080808)
       else
        if x < 120 then
         if x < 116 then
          if x < 114 then (if x < 113 then 0x0808000000080000 else 0x0808000800080000) else (if x < 115 then 0x0808000000080008 else 0x0808000800080008)
         else
          if x < 118 then (if x < 117 then 0x0808080000080000 else 0x0808080800080000) else (if x < 119 then 0x0808080000080008 else 0x0808080800080008)
        else
         if x < 124 then
          if x < 122 then (if x < 121 then 0x0808000000080800 else 0x0808000800080800) else (if x < 123 then 0x0808000000080808 else 0x0808000800080808)
         else
          if x < 126 then (if x < 125 then 0x0808080000080800 else 0x0808080800080800) else (if x < 127 then 0x0808080000080808 else 0x0808080800080808)
    else
     if x < 192 then
      if x < 160 then
       if x < 144 then
        if x < 136 then
         if x < 132 then
          if x < 130 then (if x < 129 then 0x0000000008000000 else 0x0000000808000000) else (if x < 131 then 0x0000000008000008 else 0x0000000808000008)
         else
          if x < 134 then (if x < 133 then 0x0000080008000000 else 0x0000080808000000) else (if x < 135 then 0x0000080008000008 else 0x0000080808000008)
        else
         if x < 140 then
          if x < 138 then (if x < 137 then 0x0000000008000800 else 0x0000000808000800) else (if x < 139 then 0x0000000008000808 else 0x0000000808000808)
         else
          if x < 142 then (if x < 141 then 0x0000080008000800 else 0x0000080808000800) else (if x < 143 then 0x0000080008000808 else 0x0000080808000808)
       else
        if x < 152 then
         if x < 148 then
          if x < 146 then (if x < 145 then 0x0008000008000000 else 0x0008000808000000) else (if x < 147 then 0x0008000008000008 else 0x0008000808000008)
         else
          if x < 150 then (if x < 149 then 0x0008080008000000 else 0x0008080808000000) else (if x < 151 then 0x0008080008000008 else 0x0008080808000008)
        else
         if x < 156 then
          if x < 154 then (if x < 153 then 0x0008000008000800 else 0x0008000808000800) else (if x < 155 then 0x0008000008000808 else 0x0008000808000808)
         else
          if x < 158 then (if x < 157 then 0x0008080008000800 else 0x0008080808000800) else (if x < 159 then 0x0008080008000808 else 0x0008080808000808)
      else
       if x < 176 then
        if x < 168 then
         if x < 164 then
          if x < 162 then (if x < 161 then 0x0000000008080000 else 0x0000000808080000) else (if x < 163 then 0x0000000008080008 else 0x0000000808080008)
         else
          if x < 166 then (if x < 165 then 0x0000080008080000 else 0x0000080808080000) else (if x < 167 then 0x0000080008080008 else 0x0000080808080008)
        else
         if x < 172 then
          if x < 170 then (if x < 169 then 0x0000000008080800 else 0x0000000808080800) else (if x < 171 then 0x0000000008080808 else 0x0000000808080808)
         else
          if x < 174 then (if x < 173 then 0x0000080008080800 else 0x0000080808080800) else (if x < 175 then 0x0000080008080808 else 0x0000080808080808)
       else
        if x < 184 then
         if x < 180 then
          if x < 178 then (if x < 177 then 0x0008000008080000 else 0x0008000808080000) else (if x < 179 then 0x0008000008080008 else 0x0008000808080008)
         else
          if x < 182 then (if x < 181 then 0x0008080008080000 else 0x0008080808080000) else (if x < 183 then 0x0008080008080008 else 0x0008080808080008)
        else
         if x < 188 then
          if x < 186 then (if x < 185 then 0x0008000008080800 else 0x0008000808080800) else (if x < 187 then 0x0008000008080808 else 0x0008000808080808)
         else
          if x < 190 then (if x < 189 then 0x0008080008080800 else 0x0008080808080800) else (if x < 191 then 0x0008080008080808 else 0x0008080808080808)
     else
      if x < 224 then
       if x < 208 then
        if x < 200 then
         if x < 196 then
          if x < 194 then (if x < 193 then 0x0800000008000000 else 0x0800000808000000) else (if x < 195 then 0x0800000008000008 else 0x0800000808000008)
         else
          if x < 198 then (if x < 197 then 0x0800080008000000 else 0x0800080808000000) else (if x < 199 then 0x0800080008000008 else 0x0800080808000008)
        else
         if x < 204 then
          if x < 202 then (if x < 201 then 0x0800000008000800 else 0x0800000808000800) else (if x < 203 then 0x0800000008000808 else 0x0800000808000808)
         else
          if x < 206 then (if x < 205 then 0x0800080008000800 else 0x0800080808000800) else (if x < 207 then 0x0800080008000808 else 0x0800080808000808)
       else
        if x < 216 then
         if x < 212 then
          if x < 210 then (if x < 209 then 0x0808000008000000 else 0x0808000808000000) else (if x < 211 then 0x0808000008000008 else 0x0808000808000008)
         else
          if x < 214 then (if x < 213 then 0x0808080008000000 else 0x0808080808000000) else (if x < 215 then 0x0808080008000008 else 0x0808080808000008)
        else
         if x < 220 then
          if x < 218 then (if x < 217 then 0x0808000008000800 else 0x0808000808000800) else (if x < 219 then 0x0808000008000808 else 0x0808000808000808)
         else
          if x < 222 then (if x < 221 then 0x0808080008000800 else 0x0808080808000800) else (if x < 223 then 0x0808080008000808 else 0x0808080808000808)
      else
       if x < 240 then
        if x < 232 then
         if x < 228 then
          if x < 226 then (if x < 225 then 0x0800000008080000 else 0x0800000808080000) else (if x < 227 then 0x0800000008080008 else 0x0800000808080008)
         else
          if x < 230 then (if x < 229 then 0x0800080008080000 else 0x0800080808080000) else (if x < 231 then 0x0800080008080008 else 0x0800080808080008)
        else
         if x < 236 then
          if x < 234 then (if x < 233 then 0x0800000008080800 else 0x0800000808080800) else (if x < 235 then 0x0800000008080808 else 0x0800000808080808)
         else
          if x < 238 then (if x < 237 then 0x0800080008080800 else 0x0800080808080800) else (if x < 239 then 0x0800080008080808 else 0x0800080808080808)
       else
        if x < 248 then
         if x < 244 then
          if x < 242 then (if x < 241 then 0x0808000008080000 else 0x0808000808080000) else (if x < 243 then 0x0808000008080008 else 0x0808000808080008)
         else
          if x < 246 then (if x < 245 then 0x0808080008080000 else 0x0808080808080000) else (if x < 247 then 0x0808080008080008 else 0x0808080808080008)
        else
         if x < 252 then
          if x < 250 then (if x < 249 then 0x0808000008080800 else 0x0808000808080800) else (if x < 251 then 0x0808000008080808 else 0x0808000808080808)
         else
          if x < 254 then (if x < 253 then 0x0808080008080800 else 0x0808080808080800) else (if x < 255 then 0x0808080008080808 else 0x0808080808080808)
  }

  function Ip2(x: bv8): bv64 {
    if x < 128 then
     if x < 64 then
      if x < 32 then
       if x < 16 then
        if x < 8 then
         if x < 4 then
          if x < 2 then (if x < 1 then 0x0000000000000000 else 0x0000000400000000) else (if x < 3 then 0x0000000000000004 else 0x0000000400000004)
         else
          if x < 6 then (if x < 5 then 0x0000040000000000 else 0x0000040400000000) else (if x < 7 then 0x0000040000000004 else 0x0000040400000004)
        else
         if x < 12 then
          if x < 10 then (if x < 9 then 0x0000000000000400 else 0x0000000400000400) else (if x < 11 then 0x0000000000000404 else 0x0000000400000404)
         else
          if x < 14 then (if x < 13 then 0x0000040000000400 else 0x0000040400000400) else (if x < 15 then 0x0000040000000404 else 0x0000040400000404)
       else
        if x < 24 then
         if x < 20 then
          if x < 18 then (if x < 17 then 0x0004000000000000 else 0x0004000400000000) else (if x < 19 then 0x0004000000000004 else 0x0004000400000004)
         else
          if x < 22 then (if x < 21 then 0x0004040000000000 else 0x0004040400000000) else (if x < 23 then 0x0004040000000004 else 0x0004040400000004)
        else
         if x < 28 then
          if x < 26 then (if x < 25 then 0x0004000000000400 else 0x0004000400000400) else (if x < 27 then 0x0004000000000404 else 0x0004000400000404)
         else
          if x < 30 then (if x < 29 then 0x0004040000000400 else 0x0004040400000400) else (if x < 31 then 0x0004040000000404 else 0x0004040400000404)
      else
       if x < 48 then
        if x < 40 then
         if x < 36 then
          if x < 34 then (if x < 33 then 0x0000000000040000 else 0x0000000400040000) else (if x < 35 then 0x0000000000040004 else 0x0000000400040004)
         else
          if x < 38 then (if x < 37 then 0x0000040000040000 else 0x0000040400040000) else (if x < 39 then 0x0000040000040004 else 0x0000040400040004)
        else
         if x < 44 then
          if x < 42 then (if x < 41 then 0x0000000000040400 else 0x0000000400040400) else (if x < 43 then 0x0000000000040404 else 0x0000000400040404)
         else
          if x < 46 then (if x < 45 then 0x0000040000040400 else 0x0000040400040400) else (if x < 47 then 0x0000040000040404 else 0x0000040400040404)
       else
        if x < 56 then
         if x < 52 then
          if x < 50 then (if x < 49 then 0x0004000000040000 else 0x0004000400040000) else (if x < 51 then 0x0004000000040004 else 0x0004000400040004)
         else
          if x < 54 then (if x < 53 then 0x0004040000040000 else 0x0004040400040000) else (if x < 55 then 0x0004040000040004 else 0x0004040400040004)
        else
         if x < 60 then
          if x < 58 then (if x < 57 then 0x0004000000040400 else 0x0004000400040400) else (if x < 59 then 0x0004000000040404 else 0x0004000400040404)
         else
          if x < 62 then (if x < 61 then 0x0004040000040400 else 0x0004040400040400) else (if x < 63 then 0x0004040000040404 else 0x0004040400040404)
     else
      if x < 96 then
       if x < 80 then
        if x < 72 then
         if x < 68 then
          if x < 66 then (if x < 65 then 0x0400000000000000 else 0x0400000400000000) else (if x < 67 then 0x0400000000000004 else 0x0400000400000004)
         else
          if x < 70 then (if x < 69 then 0x0400040000000000 else 0x0400040400000000) else (if x < 71 then 0x0400040000000004 else 0x0400040400000004)
        else
         if x < 76 then
          if x < 74 then (if x < 73 then 0x0400000000000400 else 0x0400000400000400) else (if x < 75 then 0x0400000000000404 else 0x0400000400000404)
         else
          if x < 78 then (if x < 77 then 0x0400040000000400 else 0x0400040400000400) else (if x < 79 then 0x0400040000000404 else 0x0400040400000404)
       else
        if x < 88 then
         if x < 84 then
          if x < 82 then (if x < 81 then 0x0404000000000000 else 0x0404000400000000) else (if x < 83 then 0x0404000000000004 else 0x0404000400000004)
         else
          if x < 86 then (if x < 85 then 0x0404040000000000 else 0x0404040400000000) else (if x < 87 then 0x0404040000000004 else 0x0404040400000004)
        else
         if x < 92 then
          if x < 90 then (if x < 89 then 0x0404000000000400 else 0x0404000400000400) else (if x < 91 then 0x0404000000000404 else 0x0404000400000404)
         else
          if x < 94 then (if x < 93 then 0x0404040000000400 else 0x0404040400000400) else (if x < 95 then 0x0404040000000404 else 0x0404040400000404)
      else
       if x < 112 then
        if x < 104 then
         if x < 100 then
          if x < 98 then (if x < 97 then 0x0400000000040000 else 0x0400000400040000) else (if x < 99 then 0x0400000000040004 else 0x0400000400040004)
         else
          if x < 102 then (if x < 101 then 0x0400040000040000 else 0x0400040400040000) else (if x < 103 then 0x0400040000040004 else 0x0400040400040004)
        else
         if x < 108 then
          if x < 106 then (if x < 105 then 0x0400000000040400 else 0x0400000400040400) else (if x < 107 then 0x0400000000040404 else 0x0400000400040404)
         else
          if x < 110 then (if x < 109 then 0x0400040000040400 else 0x0400040400040400) else (if x < 111 then 0x0400040000040404 else 0x0400040400040404)
       else
        if x < 120 then
         if x < 116 then
          if x < 114 then (if x < 113 then 0x0404000000040000 else 0x0404000400040000) else (if x < 115 then 0x0404000000040004 else 0x0404000400040004)
         else
          if x < 118 then (if x < 117 then 0x0404040000040000 else 0x0404040400040000) else (if x < 119 then 0x0404040000040004 else 0x0404040400040004)
        else
         if x < 124 then
          if x < 122 then (if x < 121 then 0x0404000000040400 else 0x0404000400040400) else (if x < 123 then 0x0404000000040404 else 0x0404000400040404)
         else
          if x < 126 then (if x < 125 then 0x0404040000040400 else 0x0404040400040400) else (if x < 127 then 0x0404040000040404 else 0x0404040400040404)
    else
     if x < 192 then
      if x < 160 then
       if x < 144 then
        if x < 136 then
         if x < 132 then
          if x < 130 then (if x < 129 then 0x0000000004000000 else 0x0000000404000000) else (if x < 131 then 0x0000000004000004 else 0x0000000404000004)
         else
          if x < 134 then (if x < 133 then 0x0000040004000000 else 0x0000040404000000) else (if x < 135 then 0x0000040004000004 else 0x0000040404000004)
        else
         if x < 140 then
          if x < 138 then (if x < 137 then 0x0000000004000400 else 0x0000000404000400) else (if x < 139 then 0x0000000004000404 else 0x0000000404000404)
         else
          if x < 142 then (if x < 141 then 0x0000040004000400 else 0x0000040404000400) else (if x < 143 then 0x0000040004000404 else 0x0000040404000404)
       else
        if x < 152 then
         if x < 148 then
          if x < 146 then (if x < 145 then 0x0004000004000000 else 0x0004000404000000) else (if x < 147 then 0x0004000004000004 else 0x0004000404000004)
         else
          if x < 150 then (if x < 149 then 0x0004040004000000 else 0x0004040404000000) else (if x < 151 then 0x0004040004000004 else 0x0004040404000004)
        else
         if x < 156 then
          if x < 154 then (if x < 153 then 0x0004000004000400 else 0x0004000404000400) else (if x < 155 then 0x0004000004000404 else 0x0004000404000404)
         else
          if x < 158 then (if x < 157 then 0x0004040004000400 else 0x0004040404000400) else (if x < 159 then 0x0004040004000404 else 0x0004040404000404)
      else
       if x < 176 then
        if x < 168 then
         if x < 164 then
          if x < 162 then (if x < 161 then 0x0000000004040000 else 0x0000000404040000) else (if x < 163 then 0x0000000004040004 else 0x0000000404040004)
         else
          if x < 166 then (if x < 165 then 0x0000040004040000 else 0x0000040404040000) else (if x < 167 then 0x0000040004040004 else 0x0000040404040004)
        else
         if x < 172 then
          if x < 170 then (if x < 169 then 0x0000000004040400 else 0x0000000404040400) else (if x < 171 then 0x0000000004040404 else 0x0000000404040404)
         else
          if x < 174 then (if x < 173 then 0x0000040004040400 else 0x0000040404040400) else (if x < 175 then 0x0000040004040404 else 0x0000040404040404)
       else
        if x < 184 then
         if x < 180 then
          if x < 178 then (if x < 177 then 0x0004000004040000 else 0x0004000404040000) else (if x < 179 then 0x0004000004040004 else 0x0004000404040004)
         else
          if x < 182 then (if x < 181 then 0x0004040004040000 else 0x0004040404040000) else (if x < 183 then 0x0004040004040004 else 0x0004040404040004)
        else
         if x < 188 then
          if x < 186 then (if x < 185 then 0x0004000004040400 else 0x0004000404040400) else (if x < 187 then 0x0004000004040404 else 0x0004000404040404)
         else
          if x < 190 then (if x < 189 then 0x0004040004040400 else 0x0004040404040400) else (if x < 191 then 0x0004040004040404 else 0x0004040404040404)
     else
      if x < 224 then
       if x < 208 then
        if x < 200 then
         if x < 196 then
          if x < 194 then (if x < 193 then 0x0400000004000000 else 0x0400000404000000) else (if x < 195 then 0x0400000004000004 else 0x0400000404000004)
         else
          if x < 198 then (if x < 197 then 0x0400040004000000 else 0x0400040404000000) else (if x < 199 then 0x0400040004000004 else 0x0400040404000004)
        else
         if x < 204 then
          if x < 202 then (if x < 201 then 0x0400000004000400 else 0x0400000404000400) else (if x < 203 then 0x0400000004000404 else 0x0400000404000404)
         else
          if x < 206 then (if x < 205 then 0x0400040004000400 else 0x0400040404000400) else (if x < 207 then 0x0400040004000404 else 0x0400040404000404)
       else
        if x < 216 then
         if x < 212 then
          if x < 210 then (if x < 209 then 0x0404000004000000 else 0x0404000404000000) else (if x < 211 then 0x0404000004000004 else 0x0404000404000004)
         else
          if x < 214 then (if x < 213 then 0x0404040004000000 else 0x0404040404000000) else (if x < 215 then 0x0404040004000004 else 0x0404040404000004)
        else
         if x < 220 then
          if x < 218 then (if x < 217 then 0x0404000004000400 else 0x0404000404000400) else (if x < 219 then 0x0404000004000404 else 0x0404000404000404)
         else
          if x < 222 then (if x < 221 then 0x0404040004000400 else 0x0404040404000400) else (if x < 223 then 0x0404040004000404 else 0x0404040404000404)
      else
       if x < 240 then
        if x < 232 then
         if x < 228 then
          if x < 226 then (if x < 225 then 0x0400000004040000 else 0x0400000404040000) else (if x < 227 then 0x0400000004040004 else 0x0400000404040004)
         else
          if x < 230 then (if x < 229 then 0x0400040004040000 else 0x0400040404040000) else (if x < 231 then 0x0400040004040004 else 0x0400040404040004)
        else
         if x < 236 then
          if x < 234 then (if x < 233 then 0x0400000004040400 else 0x0400000404040400) else (if x < 235 then 0x0400000004040404 else 0x0400000404040404)
         else
          if x < 238 then (if x < 237 then 0x0400040004040400 else 0x0400040404040400) else (if x < 239 then 0x0400040004040404 else 0x0400040404040404)
       else
        if x < 248 then
         if x < 244 then
          if x < 242 then (if x < 241 then 0x0404000004040000 else 0x0404000404040000) else (if x < 243 then 0x0404000004040004 else 0x0404000404040004)
         else
          if x < 246 then (if x < 245 then 0x0404040004040000 else 0x0404040404040000) else (if x < 247 then 0x0404040004040004 else 0x0404040404040004)
        else
         if x < 252 then
          if x < 250 then (if x < 249 then 0x0404000004040400 else 0x0404000404040400) else (if x < 251 then 0x0404000004040404 else 0x0404000404040404)
         else
          if x < 254 then (if x < 253 then 0x0404040004040400 else 0x0404040404040400) else (if x < 255 then 0x0404040004040404 else 0x0404040404040404)
  }

  function Ip3(x: bv8): bv64 {
    if x < 128 then
     if x < 64 then
      if x < 32 then
       if x < 16 then
        if x < 8 then
         if x < 4 then
          if x < 2 then (if x < 1 then 0x0000000000000000 else 0x0000000200000000) else (if x < 3 then 0x0000000000000002 else 0x0000000200000002)
         else
          if x < 6 then (if x < 5 then 0x0000020000000000 else 0x0000020200000000) else (if x < 7 then 0x0000020000000002 else 0x0000020200000002)
        else
         if x < 12 then
          if x < 10 then (if x < 9 then 0x0000000000000200 else 0x0000000200000200) else (if x < 11 then 0x0000000000000202 else 0x0000000200000202)
         else
          if x < 14 then (if x < 13 then 0x0000020000000200 else 0x0000020200000200) else (if x < 15 then 0x0000020000000202 else 0x0000020200000202)
       else
        if x < 24 then
         if x < 20 then
          if x < 18 then (if x < 17 then 0x0002000000000000 else 0x0002000200000000) else (if x < 19 then 0x0002000000000002 else 0x0002000200000002)
         else
          if x < 22 then (if x < 21 then 0x0002020000000000 else 0x0002020200000000) else (if x < 23 then 0x0002020000000002 else 0x0002020200000002)
        else
         if x < 28 then
          if x < 26 then (if x < 25 then 0x0002000000000200 else 0x0002000200000200) else (if x < 27 then 0x0002000000000202 else 0x0002000200000202)
         else
          if x < 30 then (if x < 29 then 0x0002020000000200 else 0x0002020200000200) else (if x < 31 then 0x0002020000000202 else 0x0002020200000202)
      else
       if x < 48 then
        if x < 40 then
         if x < 36 then
          if x < 34 then (if x < 33 then 0x0000000000020000 else 0x0000000200020000) else (if x < 35 then 0x0000000000020002 else 0x0000000200020002)
         else
          if x < 38 then (if x < 37 then 0x0000020000020000 else 0x0000020200020000) else (if x < 39 then 0x0000020000020002 else 0x0000020200020002)
        else
         if x < 44 then
          if x < 42 then (if x < 41 then 0x0000000000020200 else 0x0000000200020200) else (if x < 43 then 0x0000000000020202 else 0x0000000200020202)
         else
          if x < 46 then (if x < 45 then 0x0000020000020200 else 0x0000020200020200) else (if x < 47 then 0x0000020000020202 else 0x0000020200020202)
       else
        if x < 56 then
         if x < 52 then
          if x < 50 then (if x < 49 then 0x0002000000020000 else 0x0002000200020000) else (if x < 51 then 0x0002000000020002 else 0x0002000200020002)
         else
          if x < 54 then (if x < 53 then 0x0002020000020000 else 0x0002020200020000) else (if x < 55 then 0x0002020000020002 else 0x0002020200020002)
        else
         if x < 60 then
          if x < 58 then (if x < 57 then 0x0002000000020200 else 0x0002000200020200) else (if x < 59 then 0x0002000000020202 else 0x0002000200020202)
         else
          if x < 62 then (if x < 61 then 0x0002020000020200 else 0x0002020200020200) else (if x < 63 then 0x0002020000020202 else 0x0002020200020202)
     else
      if x < 96 then
       if x < 80 then
        if x < 72 then
         if x < 68 then
          if x < 66 then (if x < 65 then 0x0200000000000000 else 0x0200000200000000) else (if x < 67 then 0x0200000000000002 else 0x0200000200000002)
         else
          if x < 70 then (if x < 69 then 0x0200020000000000 else 0x0200020200000000) else (if x < 71 then 0x0200020000000002 else 0x0200020200000002)
        else
         if x < 76 then
          if x < 74 then (if x < 73 then 0x0200000000000200 else 0x0200000200000200) else (if x < 75 then 0x0200000000000202 else 0x0200000200000202)
         else
          if x < 78 then (if x < 77 then 0x0200020000000200 else 0x0200020200000200) else (if x < 79 then 0x0200020000000202 else 0x0200020200000202)
       else
        if x < 88 then
         if x < 84 then
          if x < 82 then (if x < 81 then 0x0202000000000000 else 0x0202000200000000) else (if x < 83 then 0x0202000000000002 else 0x0202000200000002)
         else
          if x < 86 then (if x < 85 then 0x0202020000000000 else 0x0202020200000000) else (if x < 87 then 0x0202020000000002 else 0x0202020200000002)
        else
         if x < 92 then
          if x < 90 then (if x < 89 then 0x0202000000000200 else 0x0202000200000200) else (if x < 91 then 0x0202000000000202 else 0x0202000200000202)
         else
          if x < 94 then (if x < 93 then 0x0202020000000200 else 0x0202020200000200) else (if x < 95 then 0x0202020000000202 else 0x0202020200000202)
      else
       if x < 112 then
        if x < 104 then
         if x < 100 then
          if x < 98 then (if x < 97 then 0x0200000000020000 else 0x0200000200020000) else (if x < 99 then 0x0200000000020002 else 0x0200000200020002)
         else
          if x < 102 then (if x < 101 then 0x0200020000020000 else 0x0200020200020000) else (if x < 103 then 0x0200020000020002 else 0x0200020200020002)
        else
         if x < 108 then
          if x < 106 then (if x < 105 then 0x0200000000020200 else 0x0200000200020200) else (if x < 107 then 0x0200000000020202 else 0x0200000200020202)
         else
          if x < 110 then (if x < 109 then 0x0200020000020200 else 0x0200020200020200) else (if x < 111 then 0x0200020000020202 else 0x0200020200020202)
       else
        if x < 120 then
         if x < 116 then
          if x < 114 then (if x < 113 then 0x0202000000020000 else 0x0202000200020000) else (if x < 115 then 0x0202000000020002 else 0x0202000200020002)
         else
          if x < 118 then (if x < 117 then 0x0202020000020000 else 0x0202020200020000) else (if x < 119 then 0x0202020000020002 else 0x0202020200020002)
        else
         if x < 124 then
          if x < 122 then (if x < 121 then 0x0202000000020200 else 0x0202000200020200) else (if x < 123 then 0x0202000000020202 else 0x0202000200020202)
         else
          if x < 126 then (if x < 125 then 0x0202020000020200 else 0x0202020200020200) else (if x < 127 then 0x0202020000020202 else 0x0202020200020202)
    else
     if x < 192 then
      if x < 160 then
       if x < 144 then
        if x < 136 then
         if x < 132 then
          if x < 130 then (if x < 129 then 0x0000000002000000 else 0x0000000202000000) else (if x < 131 then 0x0000000002000002 else 0x0000000202000002)
         else
          if x < 134 then (if x < 133 then 0x0000020002000000 else 0x0000020202000000) else (if x < 135 then 0x0000020002000002 else 0x0000020202000002)
        else
         if x < 140 then
          if x < 138 then (if x < 137 then 0x0000000002000200 else 0x0000000202000200) else (if x < 139 then 0x0000000002000202 else 0x0000000202000202)
         else
          if x < 142 then (if x < 141 then 0x0000020002000200 else 0x0000020202000200) else (if x < 143 then 0x0000020002000202 else 0x0000020202000202)
       else
        if x < 152 then
         if x < 148 then
          if x < 146 then (if x < 145 then 0x0002000002000000 else 0x0002000202000000) else (if x < 147 then 0x0002000002000002 else 0x0002000202000002)
         else
          if x < 150 then (if x < 149 then 0x0002020002000000 else 0x0002020202000000) else (if x < 151 then 0x0002020002000002 else 0x0002020202000002)
        else
         if x < 156 then
          if x < 154 then (if x < 153 then 0x0002000002000200 else 0x0002000202000200) else (if x < 155 then 0x0002000002000202 else 0x0002000202000202)
         else
          if x < 158 then (if x < 157 then 0x0002020002000200 else 0x0002020202000200) else (if x < 159 then 0x0002020002000202 else 0x0002020202000202)
      else
       if x < 176 then
        if x < 168 then
         if x < 164 then
          if x < 162 then (if x < 161 then 0x0000000002020000 else 0x0000000202020000) else (if x < 163 then 0x0000000002020002 else 0x0000000202020002)
         else
          if x < 166 then (if x < 165 then 0x0000020002020000 else 0x0000020202020000) else (if x < 167 then 0x0000020002020002 else 0x0000020202020002)
        else
         if x < 172 then
          if x < 170 then (if x < 169 then 0x0000000002020200 else 0x0000000202020200) else (if x < 171 then 0x0000000002020202 else 0x0000000202020202)
         else
          if x < 174 then (if x < 173 then 0x0000020002020200 else 0x0000020202020200) else (if x < 175 then 0x0000020002020202 else 0x0000020202020202)
       else
        if x < 184 then
         if x < 180 then
          if x < 178 then (if x < 177 then 0x0002000002020000 else 0x0002000202020000) else (if x < 179 then 0x0002000002020002 else 0x0002000202020002)
         else
          if x < 182 then (if x < 181 then 0x0002020002020000 else 0x0002020202020000) else (if x < 183 then 0x0002020002020002 else 0x0002020202020002)
        else
         if x < 188 then
          if x < 186 then (if x < 185 then 0x0002000002020200 else 0x0002000202020200) else (if x < 187 then 0x0002000002020202 else 0x0002000202020202)
         else
          if x < 190 then (if x < 189 then 0x0002020002020200 else 0x0002020202020200) else (if x < 191 then 0x0002020002020202 else 0x0002020202020202)
     else
      if x < 224 then
       if x < 208 then
        if x < 200 then
         if x < 196 then
          if x < 194 then (if x < 193 then 0x0200000002000000 else 0x0200000202000000) else (if x < 195 then 0x0200000002000002 else 0x0200000202000002)
         else
          if x < 198 then (if x < 197 then 0x0200020002000000 else 0x0200020202000000) else (if x < 199 then 0x0200020002000002 else 0x0200020202000002)
        else
         if x < 204 then
          if x < 202 then (if x < 201 then 0x0200000002000200 else 0x0200000202000200) else (if x < 203 then 0x0200000002000202 else 0x0200000202000202)
         else
          if x < 206 then (if x < 205 then 0x0200020002000200 else 0x0200020202000200) else (if x < 207 then 0x0200020002000202 else 0x0200020202000202)
       else
        if x < 216 then
         if x < 212 then
          if x < 210 then (if x < 209 then 0x0202000002000000 else 0x0202000202000000) else (if x < 211 then 0x0202000002000002 else 0x0202000202000002)
         else
          if x < 214 then (if x < 213 then 0x0202020002000000 else 0x0202020202000000) else (if x < 215 then 0x0202020002000002 else 0x0202020202000002)
        else
         if x < 220 then
          if x < 218 then (if x < 217 then 0x0202000002000200 else 0x0202000202000200) else (if x < 219 then 0x0202000002000202 else 0x0202000202000202)
         else
          if x < 222 then (if x < 221 then 0x0202020002000200 else 0x0202020202000200) else (if x < 223 then 0x0202020002000202 else 0x0202020202000202)
      else
       if x < 240 then
        if x < 232 then
         if x < 228 then
          if x < 226 then (if x < 225 then 0x0200000002020000 else 0x0200000202020000) else (if x < 227 then 0x0200000002020002 else 0x0200000202020002)
         else
          if x < 230 then (if x < 229 then 0x0200020002020000 else 0x0200020202020000) else (if x < 231 then 0x0200020002020002 else 0x0200020202020002)
        else
         if x < 236 then
          if x < 234 then (if x < 233 then 0x0200000002020200 else 0x0200000202020200) else (if x < 235 then 0x0200000002020202 else 0x0200000202020202)
         else
          if x < 238 then (if x < 237 then 0x0200020002020200 else 0x0200020202020200) else (if x < 239 then 0x0200020002020202 else 0x0200020202020202)
       else
        if x < 248 then
         if x < 244 then
          if x < 242 then (if x < 241 then 0x0202000002020000 else 0x0202000202020000) else (if x < 243 then 0x0202000002020002 else 0x0202000202020002)
         else
          if x < 246 then (if x < 245 then 0x0202020002020000 else 0x0202020202020000) else (if x < 247 then 0x0202020002020002 else 0x0202020202020002)
        else
         if x < 252 then
          if x < 250 then (if x < 249 then 0x0202000002020200 else 0x0202000202020200) else (if x < 251 then 0x0202000002020202 else 0x0202000202020202)
         else
          if x < 254 then (if x < 253 then 0x0202020002020200 else 0x0202020202020200) else (if x < 255 then 0x0202020002020202 else 0x0202020202020202)
  }

  function Ip4(x: bv8): bv64 {
    if x < 128 then
     if x < 64 then
      if x < 32 then
       if x < 16 then
        if x < 8 then
         if x < 4 then
          if x < 2 then (if x < 1 then 0x0000000000000000 else 0x0000010000000000) else (if x < 3 then 0x0000000000000100 else 0x0000010000000100)
         else
          if x < 6 then (if x < 5 then 0x0001000000000000 else 0x0001010000000000) else (if x < 7 then 0x0001000000000100 else 0x0001010000000100)
        else
         if x < 12 then
          if x < 10 then (if x < 9 then 0x0000000000010000 else 0x0000010000010000) else (if x < 11 then 0x0000000000010100 else 0x0000010000010100)
         else
          if x < 14 then (if x < 13 then 0x0001000000010000 else 0x0001010000010000) else (if x < 15 then 0x0001000000010100 else 0x0001010000010100)
       else
        if x < 24 then
         if x < 20 then
          if x < 18 then (if x < 17 then 0x0100000000000000 else 0x0100010000000000) else (if x < 19 then 0x0100000000000100 else 0x0100010000000100)
         else
          if x < 22 then (if x < 21 then 0x0101000000000000 else 0x0101010000000000) else (if x < 23 then 0x0101000000000100 else 0x0101010000000100)
        else
         if x < 28 then
          if x < 26 then (if x < 25 then 0x0100000000010000 else 0x0100010000010000) else (if x < 27 then 0x0100000000010100 else 0x0100010000010100)
         else
          if x < 30 then (if x < 29 then 0x0101000000010000 else 0x0101010000010000) else (if x < 31 then 0x0101000000010100 else 0x0101010000010100)
      else
       if x < 48 then
        if x < 40 then
         if x < 36 then
          if x < 34 then (if x < 33 then 0x0000000001000000 else 0x0000010001000000) else (if x < 35 then 0x0000000001000100 else 0x0000010001000100)
         else
          if x < 38 then (if x < 37 then 0x0001000001000000 else 0x0001010001000000) else (if x < 39 then 0x0001000001000100 else 0x0001010001000100)
        else
         if x < 44 then
          if x < 42 then (if x < 41 then 0x0000000001010000 else 0x0000010001010000) else (if x < 43 then 0x0000000001010100 else 0x0000010001010100)
         else
          if x < 46 then (if x < 45 then 0x0001000001010000 else 0x0001010001010000) else (if x < 47 then 0x0001000001010100 else 0x0001010001010100)
       else
        if x < 56 then
         if x < 52 then
          if x < 50 then (if x < 49 then 0x0100000001000000 else 0x0100010001000000) else (if x < 51 then 0x0100000001000100 else 0x0100010001000100)
         else
          if x < 54 then (if x < 53 then 0x0101000001000000 else 0x0101010001000000) else (if x < 55 then 0x0101000001000100 else 0x0101010001000100)
        else
         if x < 60 then
          if x < 58 then (if x < 57 then 0x0100000001010000 else 0x0100010001010000) else (if x < 59 then 0x0100000001010100 else 0x0100010001010100)
         else
          if x < 62 then (if x < 61 then 0x0101000001010000 else 0x0101010001010000) else (if x < 63 then 0x0101000001010100 else 0x0101010001010100)
     else
      if x < 96 then
       if x < 80 then
        if x < 72 then
         if x < 68 then
          if x < 66 then (if x < 65 then 0x0000000100000000 else 0x0000010100000000) else (if x < 67 then 0x0000000100000100 else 0x0000010100000100)
         else
          if x < 70 then (if x < 69 then 0x0001000100000000 else 0x0001010100000000) else (if x < 71 then 0x0001000100000100 else 0x0001010100000100)
        else
         if x < 76 then
          if x < 74 then (if x < 73 then 0x0000000100010000 else 0x0000010100010000) else (if x < 75 then 0x0000000100010100 else 0x0000010100010100)
         else
          if x < 78 then (if x < 77 then 0x0001000100010000 else 0x0001010100010000) else (if x < 79 then 0x0001000100010100 else 0x0001010100010100)
       else
        if x < 88 then
         if x < 84 then
          if x < 82 then (if x < 81 then 0x0100000100000000 else 0x0100010100000000) else (if x < 83 then 0x0100000100000100 else 0x0100010100000100)
         else
          if x < 86 then (if x < 85 then 0x0101000100000000 else 0x0101010100000000) else (if x < 87 then 0x0101000100000100 else 0x0101010100000100)
        else
         if x < 92 then
          if x < 90 then (if x < 89 then 0x0100000100010000 else 0x0100010100010000) else (if x < 91 then 0x0100000100010100 else 0x0100010100010100)
         else
          if x < 94 then (if x < 93 then 0x0101000100010000 else 0x0101010100010000) else (if x < 95 then 0x0101000100010100 else 0x0101010100010100)
      else
       if x < 112 then
        if x < 104 then
         if x < 100 then
          if x < 98 then (if x < 97 then 0x0000000101000000 else 0x0000010101000000) else (if x < 99 then 0x0000000101000100 else 0x0000010101000100)
         else
          if x < 102 then (if x < 101 then 0x0001000101000000 else 0x0001010101000000) else (if x < 103 then 0x0001000101000100 else 0x0001010101000100)
        else
         if x < 108 then
          if x < 106 then (if x < 105 then 0x0000000101010000 else 0x0000010101010000) else (if x < 107 then 0x0000000101010100 else 0x0000010101010100)
         else
          if x < 110 then (if x < 109 then 0x0001000101010000 else 0x0001010101010000) else (if x < 111 then 0x0001000101010100 else 0x0001010101010100)
       else
        if x < 120 then
         if x < 116 then
          if x < 114 then (if x < 113 then 0x0100000101000000 else 0x0100010101000000) else (if x < 115 then 0x0100000101000100 else 0x0100010101000100)
         else
          if x < 118 then (if x < 117 then 0x0101000101000000 else 0x0101010101000000) else (if x < 119 then 0x0101000101000100 else 0x0101010101000100)
        else
         if x < 124 then
          if x < 122 then (if x < 121 then 0x0100000101010000 else 0x0100010101010000) else (if x < 123 then 0x0100000101010100 else 0x0100010101010100)
         else
          if x < 126 then (if x < 125 then 0x0101000101010000 else 0x0101010101010000) else (if x < 127 then 0x0101000101010100 else 0x0101010101010100)
    else
     if x < 192 then
      if x < 160 then
       if x < 144 then
        if x < 136 then
         if x < 132 then
          if x < 130 then (if x < 129 then 0x0000000000000001 else 0x0000010000000001) else (if x < 131 then 0x0000000000000101 else 0x0000010000000101)
         else
          if x < 134 then (if x < 133 then 0x0001000000000001 else 0x0001010000000001) else (if x < 135 then 0x0001000000000101 else 0x0001010000000101)
        else
         if x < 140 then
          if x < 138 then (if x < 137 then 0x0000000000010001 else 0x0000010000010001) else (if x < 139 then 0x0000000000010101 else 0x0000010000010101)
         else
          if x < 142 then (if x < 141 then 0x0001000000010001 else 0x0001010000010001) else (if x < 143 then 0x0001000000010101 else 0x0001010000010101)
       else
        if x < 152 then
         if x < 148 then
          if x < 146 then (if x < 145 then 0x0100000000000001 else 0x0100010000000001) else (if x < 147 then 0x0100000000000101 else 0x0100010000000101)
         else
          if x < 150 then (if x < 149 then 0x0101000000000001 else 0x0101010000000001) else (if x < 151 then 0x0101000000000101 else 0x0101010000000101)
        else
         if x < 156 then
          if x < 154 then (if x < 153 then 0x0100000000010001 else 0x0100010000010001) else (if x < 155 then 0x0100000000010101 else 0x0100010000010101)
         else
          if x < 158 then (if x < 157 then 0x0101000000010001 else 0x0101010000010001) else (if x < 159 then 0x0101000000010101 else 0x0101010000010101)
      else
       if x < 176 then
        if x < 168 then
         if x < 164 then
          if x < 162 then (if x < 161 then 0x0000000001000001 else 0x0000010001000001) else (if x < 163 then 0x0000000001000101 else 0x0000010001000101)
         else
          if x < 166 then (if x < 165 then 0x0001000001000001 else 0x0001010001000001) else (if x < 167 then 0x0001000001000101 else 0x0001010001000101)
        else
         if x < 172 then
          if x < 170 then (if x < 169 then 0x0000000001010001 else 0x0000010001010001) else (if x < 171 then 0x0000000001010101 else 0x0000010001010101)
         else
          if x < 174 then (if x < 173 then 0x0001000001010001 else 0x0001010001010001) else (if x < 175 then 0x0001000001010101 else 0x0001010001010101)
       else
        if x < 184 then
         if x < 180 then
          if x < 178 then (if x < 177 then 0x0100000001000001 else 0x0100010001000001) else (if x < 179 then 0x0100000001000101 else 0x0100010001000101)
         else
          if x < 182 then (if x < 181 then 0x0101000001000001 else 0x0101010001000001) else (if x < 183 then 0x0101000001000101 else 0x0101010001000101)
        else
         if x < 188 then
          if x < 186 then (if x < 185 then 0x0100000001010001 else 0x0100010001010001) else (if x < 187 then 0x0100000001010101 else 0x0100010001010101)
         else
          if x < 190 then (if x < 189 then 0x0101000001010001 else 0x0101010001010001) else (if x < 191 then 0x0101000001010101 else 0x0101010001010101)
     else
      if x < 224 then
       if x < 208 then
        if x < 200 then
         if x < 196 then
          if x < 194 then (if x < 193 then 0x0000000100000001 else 0x0000010100000001) else (if x < 195 then 0x0000000100000101 else 0x0000010100000101)
         else
          if x < 198 then (if x < 197 then 0x0001000100000001 else 0x0001010100000001) else (if x < 199 then 0x0001000100000101 else 0x0001010100000101)
        else
         if x < 204 then
          if x < 202 then (if x < 201 then 0x0000000100010001 else 0x0000010100010001) else (if x < 203 then 0x0000000100010101 else 0x0000010100010101)
         else
          if x < 206 then (if x < 205 then 0x0001000100010001 else 0x0001010100010001) else (if x < 207 then 0x0001000100010101 else 0x0001010100010101)
       else
        if x < 216 then
         if x < 212 then
          if x < 210 then (if x < 209 then 0x0100000100000001 else 0x0100010100000001) else (if x < 211 then 0x0100000100000101 else 0x0100010100000101)
         else
          if x < 214 then (if x < 213 then 0x0101000100000001 else 0x0101010100000001) else (if x < 215 then 0x0101000100000101 else 0x0101010100000101)
        else
         if x < 220 then
          if x < 218 then (if x < 217 then 0x0100000100010001 else 0x0100010100010001) else (if x < 219 then 0x0100000100010101 else 0x0100010100010101)
         else
          if x < 222 then (if x < 221 then 0x0101000100010001 else 0x0101010100010001) else (if x < 223 then 0x0101000100010101 else 0x0101010100010101)
      else
       if x < 240 then
        if x < 232 then
         if x < 228 then
          if x < 226 then (if x < 225 then 0x0000000101000001 else 0x0000010101000001) else (if x < 227 then 0x0000000101000101 else 0x0000010101000101)
         else
          if x < 230 then (if x < 229 then 0x0001000101000001 else 0x0001010101000001) else (if x < 231 then 0x0001000101000101 else 0x0001010101000101)
        else
         if x < 236 then
          if x < 234 then (if x < 233 then 0x0000000101010001 else 0x0000010101010001) else (if x < 235 then 0x0000000101010101 else 0x0000010101010101)
         else
          if x < 238 then (if x < 237 then 0x0001000101010001 else 0x0001010101010001) else (if x < 239 then 0x0001000101010101 else 0x0001010101010101)
       else
        if x < 248 then
         if x < 244 then
          if x < 242 then (if x < 241 then 0x0100000101000001 else 0x0100010101000001) else (if x < 243 then 0x0100000101000101 else 0x0100010101000101)
         else
          if x < 246 then (if x < 245 then 0x0101000101000001 else 0x0101010101000001) else (if x < 247 then 0x0101000101000101 else 0x0101010101000101)
        else
         if x < 252 then
          if x < 250 then (if x < 249 then 0x0100000101010001 else 0x0100010101010001) else (if x < 251 then 0x0100000101010101 else 0x0100010101010101)
         else
          if x < 254 then (if x < 253 then 0x0101000101010001 else 0x0101010101010001) else (if x < 255 then 0x0101000101010101 else 0x0101010101010101)
  }

  function Ip5(x: bv8): bv64 {
    if x < 128 then
     if x < 64 then
      if x < 32 then
       if x < 16 then
        if x < 8 then
         if x < 4 then
          if x < 2 then (if x < 1 then 0x0000000000000000 else 0x0000008000000000) else (if x < 3 then 0x0000000000000080 else 0x0000008000000080)
         else
          if x < 6 then (if x < 5 then 0x0000800000000000 else 0x0000808000000000) else (if x < 7 then 0x0000800000000080 else 0x0000808000000080)
        else
         if x < 12 then
          if x < 10 then (if x < 9 then 0x0000000000008000 else 0x0000008000008000) else (if x < 11 then 0x0000000000008080 else 0x0000008000008080)
         else
          if x < 14 then (if x < 13 then 0x0000800000008000 else 0x0000808000008000) else (if x < 15 then 0x0000800000008080 else 0x0000808000008080)
       else
        if x < 24 then
         if x < 20 then
          if x < 18 then (if x < 17 then 0x0080000000000000 else 0x0080008000000000) else (if x < 19 then 0x0080000000000080 else 0x0080008000000080)
         else
          if x < 22 then (if x < 21 then 0x0080800000000000 else 0x0080808000000000) else (if x < 23 then 0x0080800000000080 else 0x0080808000000080)
        else
         if x < 28 then
          if x < 26 then (if x < 25 then 0x0080000000008000 else 0x0080008000008000) else (if x < 27 then 0x0080000000008080 else 0x0080008000008080)
         else
          if x < 30 then (if x < 29 then 0x0080800000008000 else 0x0080808000008000) else (if x < 31 then 0x0080800000008080 else 0x0080808000008080)
      else
       if x < 48 then
        if x < 40 then
         if x < 36 then
          if x < 34 then (if x < 33 then 0x0000000000800000 else 0x0000008000800000) else (if x < 35 then 0x0000000000800080 else 0x0000008000800080)
         else
          if x < 38 then (if x < 37 then 0x0000800000800000 else 0x0000808000800000) else (if x < 39 then 0x0000800000800080 else 0x0000808000800080)
        else
         if x < 44 then
          if x < 42 then (if x < 41 then 0x0000000000808000 else 0x0000008000808000) else (if x < 43 then 0x0000000000808080 else 0x0000008000808080)
         else
          if x < 46 then (if x < 45 then 0x0000800000808000 else 0x0000808000808000) else (if x < 47 then 0x0000800000808080 else 0x0000808000808080)
       else
        if x < 56 then
         if x < 52 then
          if x < 50 then (if x < 49 then 0x0080000000800000 else 0x0080008000800000) else (if x < 51 then 0x0080000000800080 else 0x0080008000800080)
         else
          if x < 54 then (if x < 53 then 0x0080800000800000 else 0x0080808000800000) else (if x < 55 then 0x0080800000800080 else 0x0080808000800080)
        else
         if x < 60 then
          if x < 58 then (if x < 57 then 0x0080000000808000 else 0x0080008000808000) else (if x < 59 then 0x0080000000808080 else 0x0080008000808080)
         else
          if x < 62 then (if x < 61 then 0x0080800000808000 else 0x0080808000808000) else (if x < 63 then 0x0080800000808080 else 0x0080808000808080)
     else
      if x < 96 then
       if x < 80 then
        if x < 72 then
         if x < 68 then
          if x < 66 then (if x < 65 then 0x8000000000000000 else 0x8000008000000000) else (if x < 67 then 0x8000000000000080 else 0x8000008000000080)
         else
          if x < 70 then (if x < 69 then 0x8000800000000000 else 0x8000808000000000) else (if x < 71 then 0x8000800000000080 else 0x8000808000000080)
        else
         if x < 76 then
          if x < 74 then (if x < 73 then 0x8000000000008000 else 0x8000008000008000) else (if x < 75 then 0x8000000000008080 else 0x8000008000008080)
         else
          if x < 78 then (if x < 77 then 0x8000800000008000 else 0x8000808000008000) else (if x < 79 then 0x8000800000008080 else 0x8000808000008080)
       else
        if x < 88 then
         if x < 84 then
          if x < 82 then (if x < 81 then 0x8080000000000000 else 0x8080008000000000) else (if x < 83 then 0x8080000000000080 else 0x8080008000000080)
         else
          if x < 86 then (if x < 85 then 0x8080800000000000 else 0x8080808000000000) else (if x < 87 then 0x8080800000000080 else 0x8080808000000080)
        else
         if x < 92 then
          if x < 90 then (if x < 89 then 0x8080000000008000 else 0x8080008000008000) else (if x < 91 then 0x8080000000008080 else 0x8080008000008080)
         else
          if x < 94 then (if x < 93 then 0x8080800000008000 else 0x8080808000008000) else (if x < 95 then 0x8080800000008080 else 0x8080808000008080)
      else
       if x < 112 then
        if x < 104 then
         if x < 100 then
          if x < 98 then (if x < 97 then 0x8000000000800000 else 0x8000008000800000) else (if x < 99 then 0x8000000000800080 else 0x8000008000800080)
         else
          if x < 102 then (if x < 101 then 0x8000800000800000 else 0x8000808000800000) else (if x < 103 then 0x8000800000800080 else 0x8000808000800080)
        else
         if x < 108 then
          if x < 106 then (if x < 105 then 0x8000000000808000 else 0x8000008000808000) else (if x < 107 then 0x8000000000808080 else 0x8000008000808080)
         else
          if x < 110 then (if x < 109 then 0x8000800000808000 else 0x8000808000808000) else (if x < 111 then 0x8000800000808080 else 0x8000808000808080)
       else
        if x < 120 then
         if x < 116 then
          if x < 114 then (if x < 113 then 0x8080000000800000 else 0x8080008000800000) else (if x < 115 then 0x8080000000800080 else 0x8080008000800080)
         else
          if x < 118 then (if x < 117 then 0x8080800000800000 else 0x8080808000800000) else (if x < 119 then 0x8080800000800080 else 0x8080808000800080)
        else
         if x < 124 then
          if x < 122 then (if x < 121 then 0x8080000000808000 else 0x8080008000808000) else (if x < 123 then 0x8080000000808080 else 0x8080008000808080)
         else
          if x < 126 then (if x < 125 then 0x8080800000808000 else 0x8080808000808000) else (if x < 127 then 0x8080800000808080 else 0x8080808000808080)
    else
     if x < 192 then
      if x < 160 then
       if x < 144 then
        if x < 136 then
         if x < 132 then
          if x < 130 then (if x < 129 then 0x0000000080000000 else 0x0000008080000000) else (if x < 131 then 0x0000000080000080 else 0x0000008080000080)
         else
          if x < 134 then (if x < 133 then 0x0000800080000000 else 0x0000808080000000) else (if x < 135 then 0x0000800080000080 else 0x0000808080000080)
        else
         if x < 140 then
          if x < 138 then (if x < 137 then 0x0000000080008000 else 0x0000008080008000) else (if x < 139 then 0x0000000080008080 else 0x0000008080008080)
         else
          if x < 142 then (if x < 141 then 0x0000800080008000 else 0x0000808080008000) else (if x < 143 then 0x0000800080008080 else 0x0000808080008080)
       else
        if x < 152 then
         if x < 148 then
          if x < 146 then (if x < 145 then 0x0080000080000000 else 0x0080008080000000) else (if x < 147 then 0x0080000080000080 else 0x0080008080000080)
         else
          if x < 150 then (if x < 149 then 0x0080800080000000 else 0x0080808080000000) else (if x < 151 then 0x0080800080000080 else 0x0080808080000080)
        else
         if x < 156 then
          if x < 154 then (if x < 153 then 0x0080000080008000 else 0x0080008080008000) else (if x < 155 then 0x0080000080008080 else 0x0080008080008080)
         else
          if x < 158 then (if x < 157 then 0x0080800080008000 else 0x0080808080008000) else (if x < 159 then 0x0080800080008080 else 0x0080808080008080)
      else
       if x < 176 then
        if x < 168 then
         if x < 164 then
          if x < 162 then (if x < 161 then 0x0000000080800000 else 0x0000008080800000) else (if x < 163 then 0x0000000080800080 else 0x0000008080800080)
         else
          if x < 166 then (if x < 165 then 0x0000800080800000 else 0x0000808080800000) else (if x < 167 then 0x0000800080800080 else 0x0000808080800080)
        else
         if x < 172 then
          if x < 170 then (if x < 169 then 0x0000000080808000 else 0x0000008080808000) else (if x < 171 then 0x0000000080808080 else 0x0000008080808080)
         else
          if x < 174 then (if x < 173 then 0x0000800080808000 else 0x0000808080808000) else (if x < 175 then 0x0000800080808080 else 0x0000808080808080)
       else
        if x < 184 then
         if x < 180 then
          if x < 178 then (if x < 177 then 0x0080000080800000 else 0x0080008080800000) else (if x < 179 then 0x0080000080800080 else 0x0080008080800080)
         else
          if x < 182 then (if x < 181 then 0x0080800080800000 else 0x0080808080800000) else (if x < 183 then 0x0080800080800080 else 0x0080808080800080)
        else
         if x < 188 then
          if x < 186 then (if x < 185 then 0x0080000080808000 else 0x0080008080808000) else (if x < 187 then 0x0080000080808080 else 0x0080008080808080)
         else
          if x < 190 then (if x < 189 then 0x0080800080808000 else 0x0080808080808000) else (if x < 191 then 0x0080800080808080 else 0x0080808080808080)
     else
      if x < 224 then
       if x < 208 then
        if x < 200 then
         if x < 196 then
          if x < 194 then (if x < 193 then 0x8000000080000000 else 0x8000008080000000) else (if x < 195 then 0x8000000080000080 else 0x8000008080000080)
         else
          if x < 198 then (if x < 197 then 0x8000800080000000 else 0x8000808080000000) else (if x < 199 then 0x8000800080000080 else 0x8000808080000080)
        else
         if x < 204 then
          if x < 202 then (if x < 201 then 0x8000000080008000 else 0x8000008080008000) else (if x < 203 then 0x8000000080008080 else 0x8000008080008080)
         else
          if x < 206 then (if x < 205 then 0x8000800080008000 else 0x8000808080008000) else (if x < 207 then 0x8000800080008080 else 0x8000808080008080)
       else
        if x < 216 then
         if x < 212 then
          if x < 210 then (if x < 209 then 0x8080000080000000 else 0x8080008080000000) else (if x < 211 then 0x8080000080000080 else 0x8080008080000080)
         else
          if x < 214 then (if x < 213 then 0x8080800080000000 else 0x8080808080000000) else (if x < 215 then 0x8080800080000080 else 0x8080808080000080)
        else
         if x < 220 then
          if x < 218 then (if x < 217 then 0x8080000080008000 else 0x8080008080008000) else (if x < 219 then 0x8080000080008080 else 0x8080008080008080)
         else
          if x < 222 then (if x < 221 then 0x8080800080008000 else 0x8080808080008000) else (if x < 223 then 0x8080800080008080 else 0x8080808080008080)
      else
       if x < 240 then
        if x < 232 then
         if x < 228 then
          if x < 226 then (if x < 225 then 0x8000000080800000 else 0x8000008080800000) else (if x < 227 then 0x8000000080800080 else 0x8000008080800080)
         else
          if x < 230 then (if x < 229 then 0x8000800080800000 else 0x8000808080800000) else (if x < 231 then 0x8000800080800080 else 0x8000808080800080)
        else
         if x < 236 then
          if x < 234 then (if x < 233 then 0x8000000080808000 else 0x8000008080808000) else (if x < 235 then 0x8000000080808080 else 0x8000008080808080)
         else
          if x < 238 then (if x < 237 then 0x8000800080808000 else 0x8000808080808000) else (if x < 239 then 0x8000800080808080 else 0x8000808080808080)
       else
        if x < 248 then
         if x < 244 then
          if x < 242 then (if x < 241 then 0x8080000080800000 else 0x8080008080800000) else (if x < 243 then 0x8080000080800080 else 0x8080008080800080)
         else
          if x < 246 then (if x < 245 then 0x8080800080800000 else 0x8080808080800000) else (if x < 247 then 0x8080800080800080 else 0x8080808080800080)
        else
         if x < 252 then
          if x < 250 then (if x < 249 then 0x8080000080808000 else 0x8080008080808000) else (if x < 251 then 0x8080000080808080 else 0x8080008080808080)
         else
          if x < 254 then (if x < 253 then 0x8080800080808000 else 0x8080808080808000) else (if x < 255 then 0x8080800080808080 else 0x8080808080808080)
  }

  function Ip6(x: bv8): bv64 {
    if x < 128 then
     if x < 64 then
      if x < 32 then
       if x < 16 then
        if x < 8 then
         if x < 4 then
          if x < 2 then (if x < 1 then 0x0000000000000000 else 0x0000004000000000) else (if x < 3 then 0x0000000000000040 else 0x0000004000000040)
         else
          if x < 6 then (if x < 5 then 0x0000400000000000 else 0x0000404000000000) else (if x < 7 then 0x0000400000000040 else 0x0000404000000040)
        else
         if x < 12 then
          if x < 10 then (if x < 9 then 0x0000000000004000 else 0x0000004000004000) else (if x < 11 then 0x0000000000004040 else 0x0000004000004040)
         else
          if x < 14 then (if x < 13 then 0x0000400000004000 else 0x0000404000004000) else (if x < 15 then 0x0000400000004040 else 0x0000404000004040)
       else
        if x < 24 then
         if x < 20 then
          if x < 18 then (if x < 17 then 0x0040000000000000 else 0x0040004000000000) else (if x < 19 then 0x0040000000000040 else 0x0040004000000040)
         else
          if x < 22 then (if x < 21 then 0x0040400000000000 else 0x0040404000000000) else (if x < 23 then 0x0040400000000040 else 0x0040404000000040)
        else
         if x < 28 then
          if x < 26 then (if x < 25 then 0x0040000000004000 else 0x0040004000004000) else (if x < 27 then 0x0040000000004040 else 0x0040004000004040)
         else
          if x < 30 then (if x < 29 then 0x0040400000004000 else 0x0040404000004000) else (if x < 31 then 0x0040400000004040 else 0x0040404000004040)
      else
       if x < 48 then
        if x < 40 then
         if x < 36 then
          if x < 34 then (if x < 33 then 0x0000000000400000 else 0x0000004000400000) else (if x < 35 then 0x0000000000400040 else 0x0000004000400040)
         else
          if x < 38 then (if x < 37 then 0x0000400000400000 else 0x0000404000400000) else (if x < 39 then 0x0000400000400040 else 0x0000404000400040)
        else
         if x < 44 then
          if x < 42 then (if x < 41 then 0x0000000000404000 else 0x0000004000404000) else (if x < 43 then 0x0000000000404040 else 0x0000004000404040)
         else
          if x < 46 then (if x < 45 then 0x0000400000404000 else 0x0000404000404000) else (if x < 47 then 0x0000400000404040 else 0x0000404000404040)
       else
        if x < 56 then
         if x < 52 then
          if x < 50 then (if x < 49 then 0x0040000000400000 else 0x0040004000400000) else (if x < 51 then 0x0040000000400040 else 0x0040004000400040)
         else
          if x < 54 then (if x < 53 then 0x0040400000400000 else 0x0040404000400000) else (if x < 55 then 0x0040400000400040 else 0x0040404000400040)
        else
         if x < 60 then
          if x < 58 then (if x < 57 then 0x0040000000404000 else 0x0040004000404000) else (if x < 59 then 0x0040000000404040 else 0x0040004000404040)
         else
          if x < 62 then (if x < 61 then 0x0040400000404000 else 0x0040404000404000) else (if x < 63 then 0x0040400000404040 else 0x0040404000404040)
     else
      if x < 96 then
       if x < 80 then
        if x < 72 then
         if x < 68 then
          if x < 66 then (if x < 65 then 0x4000000000000000 else 0x4000004000000000) else (if x < 67 then 0x4000000000000040 else 0x4000004000000040)
         else
          if x < 70 then (if x < 69 then 0x4000400000000000 else 0x4000404000000000) else (if x < 71 then 0x4000400000000040 else 0x4000404000000040)
        else
         if x < 76 then
          if x < 74 then (if x < 73 then 0x4000000000004000 else 0x4000004000004000) else (if x < 75 then 0x4000000000004040 else 0x4000004000004040)
         else
          if x < 78 then (if x < 77 then 0x4000400000004000 else 0x4000404000004000) else (if x < 79 then 0x4000400000004040 else 0x4000404000004040)
       else
        if x < 88 then
         if x < 84 then
          if x < 82 then (if x < 81 then 0x4040000000000000 else 0x4040004000000000) else (if x < 83 then 0x4040000000000040 else 0x4040004000000040)
         else
          if x < 86 then (if x < 85 then 0x4040400000000000 else 0x4040404000000000) else (if x < 87 then 0x4040400000000040 else 0x4040404000000040)
        else
         if x < 92 then
          if x < 90 then (if x < 89 then 0x4040000000004000 else 0x4040004000004000) else (if x < 91 then 0x4040000000004040 else 0x4040004000004040)
         else
          if x < 94 then (if x < 93 then 0x4040400000004000 else 0x4040404000004000) else (if x < 95 then 0x4040400000004040 else 0x4040404000004040)
      else
       if x < 112 then
        if x < 104 then
         if x < 100 then
          if x < 98 then (if x < 97 then 0x4000000000400000 else 0x4000004000400000) else (if x < 99 then 0x4000000000400040 else 0x4000004000400040)
         else
          if x < 102 then (if x < 101 then 0x4000400000400000 else 0x4000404000400000) else (if x < 103 then 0x4000400000400040 else 0x4000404000400040)
        else
         if x < 108 then
          if x < 106 then (if x < 105 then 0x4000000000404000 else 0x4000004000404000) else (if x < 107 then 0x4000000000404040 else 0x4000004000404040)
         else
          if x < 110 then (if x < 109 then 0x4000400000404000 else 0x4000404000404000) else (if x < 111 then 0x4000400000404040 else 0x4000404000404040)
       else
        if x < 120 then
         if x < 116 then
          if x < 114 then (if x < 113 then 0x4040000000400000 else 0x4040004000400000) else (if x < 115 then 0x4040000000400040 else 0x4040004000400040)
         else
          if x < 118 then (if x < 117 then 0x4040400000400000 else 0x4040404000400000) else (if x < 119 then 0x4040400000400040 else 0x4040404000400040)
        else
         if x < 124 then
          if x < 122 then (if x < 121 then 0x4040000000404000 else 0x4040004000404000) else (if x < 123 then 0x4040000000404040 else 0x4040004000404040)
         else
          if x < 126 then (if x < 125 then 0x4040400000404000 else 0x4040404000404000) else (if x < 127 then 0x4040400000404040 else 0x4040404000404040)
    else
     if x < 192 then
      if x < 160 then
       if x < 144 then
        if x < 136 then
         if x < 132 then
          if x < 130 then (if x < 129 then 0x0000000040000000 else 0x0000004040000000) else (if x < 131 then 0x0000000040000040 else 0x0000004040000040)
         else
          if x < 134 then (if x < 133 then 0x0000400040000000 else 0x0000404040000000) else (if x < 135 then 0x0000400040000040 else 0x0000404040000040)
        else
         if x < 140 then
          if x < 138 then (if x < 137 then 0x0000000040004000 else 0x0000004040004000) else (if x < 139 then 0x0000000040004040 else 0x0000004040004040)
         else
          if x < 142 then (if x < 141 then 0x0000400040004000 else 0x0000404040004000) else (if x < 143 then 0x0000400040004040 else 0x0000404040004040)
       else
        if x < 152 then
         if x < 148 then
          if x < 146 then (if x < 145 then 0x0040000040000000 else 0x0040004040000000) else (if x < 147 then 0x0040000040000040 else 0x0040004040000040)
         else
          if x < 150 then (if x < 149 then 0x0040400040000000 else 0x0040404040000000) else (if x < 151 then 0x0040400040000040 else 0x0040404040000040)
        else
         if x < 156 then
          if x < 154 then (if x < 153 then 0x0040000040004000 else 0x0040004040004000) else (if x < 155 then 0x0040000040004040 else 0x0040004040004040)
         else
          if x < 158 then (if x < 157 then 0x0040400040004000 else 0x0040404040004000) else (if x < 159 then 0x0040400040004040 else 0x0040404040004040)
      else
       if x < 176 then
        if x < 168 then
         if x < 164 then
          if x < 162 then (if x < 161 then 0x0000000040400000 else 0x0000004040400000) else (if x < 163 then 0x0000000040400040 else 0x0000004040400040)
         else
          if x < 166 then (if x < 165 then 0x0000400040400000 else 0x0000404040400000) else (if x < 167 then 0x0000400040400040 else 0x0000404040400040)
        else
         if x < 172 then
          if x < 170 then (if x < 169 then 0x0000000040404000 else 0x0000004040404000) else (if x < 171 then 0x0000000040404040 else 0x0000004040404040)
         else
          if x < 174 then (if x < 173 then 0x0000400040404000 else 0x0000404040404000) else (if x < 175 then 0x0000400040404040 else 0x0000404040404040)
       else
        if x < 184 then
         if x < 180 then
          if x < 178 then (if x < 177 then 0x0040000040400000 else 0x0040004040400000) else (if x < 179 then 0x0040000040400040 else 0x0040004040400040)
         else
          if x < 182 then (if x < 181 then 0x0040400040400000 else 0x0040404040400000) else (if x < 183 then 0x0040400040400040 else 0x0040404040400040)
        else
         if x < 188 then
          if x < 186 then (if x < 185 then 0x0040000040404000 else 0x0040004040404000) else (if x < 187 then 0x0040000040404040 else 0x0040004040404040)
         else
          if x < 190 then (if x < 189 then 0x0040400040404000 else 0x0040404040404000) else (if x < 191 then 0x0040400040404040 else 0x0040404040404040)
     else
      if x < 224 then
       if x < 208 then
        if x < 200 then
         if x < 196 then
          if x < 194 then (if x < 193 then 0x4000000040000000 else 0x4000004040000000) else (if x < 195 then 0x4000000040000040 else 0x4000004040000040)
         else
          if x < 198 then (if x < 197 then 0x4000400040000000 else 0x4000404040000000) else (if x < 199 then 0x4000400040000040 else 0x4000404040000040)
        else
         if x < 204 then
          if x < 202 then (if x < 201 then 0x4000000040004000 else 0x4000004040004000) else (if x < 203 then 0x4000000040004040 else 0x4000004040004040)
         else
          if x < 206 then (if x < 205 then 0x4000400040004000 else 0x4000404040004000) else (if x < 207 then 0x4000400040004040 else 0x4000404040004040)
       else
        if x < 216 then
         if x < 212 then
          if x < 210 then (if x < 209 then 0x4040000040000000 else 0x4040004040000000) else (if x < 211 then 0x4040000040000040 else 0x4040004040000040)
         else
          if x < 214 then (if x < 213 then 0x4040400040000000 else 0x4040404040000000) else (if x < 215 then 0x4040400040000040 else 0x4040404040000040)
        else
         if x < 220 then
          if x < 218 then (if x < 217 then 0x4040000040004000 else 0x4040004040004000) else (if x < 219 then 0x4040000040004040 else 0x4040004040004040)
         else
          if x < 222 then (if x < 221 then 0x4040400040004000 else 0x4040404040004000) else (if x < 223 then 0x4040400040004040 else 0x4040404040004040)
      else
       if x < 240 then
        if x < 232 then
         if x < 228 then
          if x < 226 then (if x < 225 then 0x4000000040400000 else 0x4000004040400000) else (if x < 227 then 0x4000000040400040 else 0x4000004040400040)
         else
          if x < 230 then (if x < 229 then 0x4000400040400000 else 0x4000404040400000) else (if x < 231 then 0x4000400040400040 else 0x4000404040400040)
        else
         if x < 236 then
          if x < 234 then (if x < 233 then 0x4000000040404000 else 0x4000004040404000) else (if x < 235 then 0x4000000040404040 else 0x4000004040404040)
         else
          if x < 238 then (if x < 237 then 0x4000400040404000 else 0x4000404040404000) else (if x < 239 then 0x4000400040404040 else 0x4000404040404040)
       else
        if x < 248 then
         if x < 244 then
          if x < 242 then (if x < 241 then 0x4040000040400000 else 0x4040004040400000) else (if x < 243 then 0x4040000040400040 else 0x4040004040400040)
         else
          if x < 246 then (if x < 245 then 0x4040400040400000 else 0x4040404040400000) else (if x < 247 then 0x4040400040400040 else 0x4040404040400040)
        else
         if x < 252 then
          if x < 250 then (if x < 249 then 0x4040000040404000 else 0x4040004040404000) else (if x < 251 then 0x4040000040404040 else 0x4040004040404040)
         else
          if x < 254 then (if x < 253 then 0x4040400040404000 else 0x4040404040404000) else (if x < 255 then 0x4040400040404040 else 0x4040404040404040)
  }

  function Ip7(x: bv8): bv64 {
    if x < 128 then
     if x < 64 then
      if x < 32 then
       if x < 16 then
        if x < 8 then
         if x < 4 then
          if x < 2 then (if x < 1 then 0x0000000000000000 else 0x0000002000000000) else (if x < 3 then 0x0000000000000020 else 0x0000002000000020)
         else
          if x < 6 then (if x < 5 then 0x0000200000000000 else 0x0000202000000000) else (if x < 7 then 0x0000200000000020 else 0x0000202000000020)
        else
         if x < 12 then
          if x < 10 then (if x < 9 then 0x0000000000002000 else 0x0000002000002000) else (if x < 11 then 0x0000000000002020 else 0x0000002000002020)
         else
          if x < 14 then (if x < 13 then 0x0000200000002000 else 0x0000202000002000) else (if x < 15 then 0x0000200000002020 else 0x0000202000002020)
       else
        if x < 24 then
         if x < 20 then
          if x < 18 then (if x < 17 then 0x0020000000000000 else 0x0020002000000000) else (if x < 19 then 0x0020000000000020 else 0x0020002000000020)
         else
          if x < 22 then (if x < 21 then 0x0020200000000000 else 0x0020202000000000) else (if x < 23 then 0x0020200000000020 else 0x0020202000000020)
        else
         if x < 28 then
          if x < 26 then (if x < 25 then 0x0020000000002000 else 0x0020002000002000) else (if x < 27 then 0x0020000000002020 else 0x0020002000002020)
         else
          if x < 30 then (if x < 29 then 0x0020200000002000 else 0x0020202000002000) else (if x < 31 then 0x0020200000002020 else 0x0020202000002020)
      else
       if x < 48 then
        if x < 40 then
         if x < 36 then
          if x < 34 then (if x < 33 then 0x0000000000200000 else 0x0000002000200000) else (if x < 35 then 0x0000000000200020 else 0x0000002000200020)
         else
          if x < 38 then (if x < 37 then 0x0000200000200000 else 0x0000202000200000) else (if x < 39 then 0x0000200000200020 else 0x0000202000200020)
        else
         if x < 44 then
          if x < 42 then (if x < 41 then 0x0000000000202000 else 0x0000002000202000) else (if x < 43 then 0x0000000000202020 else 0x0000002000202020)
         else
          if x < 46 then (if x < 45 then 0x0000200000202000 else 0x0000202000202000) else (if x < 47 then 0x0000200000202020 else 0x0000202000202020)
       else
        if x < 56 then
         if x < 52 then
          if x < 50 then (if x < 49 then 0x0020000000200000 else 0x0020002000200000) else (if x < 51 then 0x0020000000200020 else 0x0020002000200020)
         else
          if x < 54 then (if x < 53 then 0x0020200000200000 else 0x0020202000200000) else (if x < 55 then 0x0020200000200020 else 0x0020202000200020)
        else
         if x < 60 then
          if x < 58 then (if x < 57 then 0x0020000000202000 else 0x0020002000202000) else (if x < 59 then 0x0020000000202020 else 0x0020002000202020)
         else
          if x < 62 then (if x < 61 then 0x0020200000202000 else 0x0020202000202000) else (if x < 63 then 0x0020200000202020 else 0x0020202000202020)
     else
      if x < 96 then
       if x < 80 then
        if x < 72 then
         if x < 68 then
          if x < 66 then (if x < 65 then 0x2000000000000000 else 0x2000002000000000) else (if x < 67 then 0x2000000000000020 else 0x2000002000000020)
         else
          if x < 70 then (if x < 69 then 0x2000200000000000 else 0x2000202000000000) else (if x < 71 then 0x2000200000000020 else 0x2000202000000020)
        else
         if x < 76 then
          if x < 74 then (if x < 73 then 0x2000000000002000 else 0x2000002000002000) else (if x < 75 then 0x2000000000002020 else 0x2000002000002020)
         else
          if x < 78 then (if x < 77 then 0x2000200000002000 else 0x2000202000002000) else (if x < 79 then 0x2000200000002020 else 0x2000202000002020)
       else
        if x < 88 then
         if x < 84 then
          if x < 82 then (if x < 81 then 0x2020000000000000 else 0x2020002000000000) else (if x < 83 then 0x2020000000000020 else 0x2020002000000020)
         else
          if x < 86 then (if x < 85 then 0x2020200000000000 else 0x2020202000000000) else (if x < 87 then 0x2020200000000020 else 0x2020202000000020)
        else
         if x < 92 then
          if x < 90 then (if x < 89 then 0x2020000000002000 else 0x2020002000002000) else (if x < 91 then 0x2020000000002020 else 0x2020002000002020)
         else
          if x < 94 then (if x < 93 then 0x2020200000002000 else 0x2020202000002000) else (if x < 95 then 0x2020200000002020 else 0x2020202000002020)
      else
       if x < 112 then
        if x < 104 then
         if x < 100 then
          if x < 98 then (if x < 97 then 0x2000000000200000 else 0x2000002000200000) else (if x < 99 then 0x2000000000200020 else 0x2000002000200020)
         else
          if x < 102 then (if x < 101 then 0x2000200000200000 else 0x2000202000200000) else (if x < 103 then 0x2000200000200020 else 0x2000202000200020)
        else
         if x < 108 then
          if x < 106 then (if x < 105 then 0x2000000000202000 else 0x2000002000202000) else (if x < 107 then 0x2000000000202020 else 0x2000002000202020)
         else
          if x < 110 then (if x < 109 then 0x2000200000202000 else 0x2000202000202000) else (if x < 111 then 0x2000200000202020 else 0x2000202000202020)
       else
        if x < 120 then
         if x < 116 then
          if x < 114 then (if x < 113 then 0x2020000000200000 else 0x2020002000200000) else (if x < 115 then 0x2020000000200020 else 0x2020002000200020)
         else
          if x < 118 then (if x < 117 then 0x2020200000200000 else 0x2020202000200000) else (if x < 119 then 0x2020200000200020 else 0x2020202000200020)
        else
         if x < 124 then
          if x < 122 then (if x < 121 then 0x2020000000202000 else 0x2020002000202000) else (if x < 123 then 0x2020000000202020 else 0x2020002000202020)
         else
          if x < 126 then (if x < 125 then 0x2020200000202000 else 0x2020202000202000) else (if x < 127 then 0x2020200000202020 else 0x2020202000202020)
    else
     if x < 192 then
      if x < 160 then
       if x < 144 then
        if x < 136 then
         if x < 132 then
          if x < 130 then (if x < 129 then 0x0000000020000000 else 0x0000002020000000) else (if x < 131 then 0x0000000020000020 else 0x0000002020000020)
         else
          if x < 134 then (if x < 133 then 0x0000200020000000 else 0x0000202020000000) else (if x < 135 then 0x0000200020000020 else 0x0000202020000020)
        else
         if x < 140 then
          if x < 138 then (if x < 137 then 0x0000000020002000 else 0x0000002020002000) else (if x < 139 then 0x0000000020002020 else 0x0000002020002020)
         else
          if x < 142 then (if x < 141 then 0x0000200020002000 else 0x0000202020002000) else (if x < 143 then 0x0000200020002020 else 0x0000202020002020)
       else
        if x < 152 then
         if x < 148 then
          if x < 146 then (if x < 145 then 0x0020000020000000 else 0x0020002020000000) else (if x < 147 then 0x0020000020000020 else 0x0020002020000020)
         else
          if x < 150 then (if x < 149 then 0x0020200020000000 else 0x0020202020000000) else (if x < 151 then 0x0020200020000020 else 0x0020202020000020)
        else
         if x < 156 then
          if x < 154 then (if x < 153 then 0x0020000020002000 else 0x0020002020002000) else (if x < 155 then 0x0020000020002020 else 0x0020002020002020)
         else
          if x < 158 then (if x < 157 then 0x0020200020002000 else 0x0020202020002000) else (if x < 159 then 0x0020200020002020 else 0x0020202020002020)
      else
       if x < 176 then
        if x < 168 then
         if x < 164 then
          if x < 162 then (if x < 161 then 0x0000000020200000 else 0x0000002020200000) else (if x < 163 then 0x0000000020200020 else 0x0000002020200020)
         else
          if x < 166 then (if x < 165 then 0x0000200020200000 else 0x0000202020200000) else (if x < 167 then 0x0000200020200020 else 0x0000202020200020)
        else
         if x < 172 then
          if x < 170 then (if x < 169 then 0x0000000020202000 else 0x0000002020202000) else (if x < 171 then 0x0000000020202020 else 0x0000002020202020)
         else
          if x < 174 then (if x < 173 then 0x0000200020202000 else 0x0000202020202000) else (if x < 175 then 0x0000200020202020 else 0x0000202020202020)
       else
        if x < 184 then
         if x < 180 then
          if x < 178 then (if x < 177 then 0x0020000020200000 else 0x0020002020200000) else (if x < 179 then 0x0020000020200020 else 0x0020002020200020)
         else
          if x < 182 then (if x < 181 then 0x0020200020200000 else 0x0020202020200000) else (if x < 183 then 0x0020200020200020 else 0x0020202020200020)
        else
         if x < 188 then
          if x < 186 then (if x < 185 then 0x0020000020202000 else 0x0020002020202000) else (if x < 187 then 0x0020000020202020 else 0x0020002020202020)
         else
          if x < 190 then (if x < 189 then 0x0020200020202000 else 0x0020202020202000) else (if x < 191 then 0x0020200020202020 else 0x0020202020202020)
     else
      if x < 224 then
       if x < 208 then
        if x < 200 then
         if x < 196 then
          if x < 194 then (if x < 193 then 0x2000000020000000 else 0x2000002020000000) else (if x < 195 then 0x2000000020000020 else 0x2000002020000020)
         else
          if x < 198 then (if x < 197 then 0x2000200020000000 else 0x2000202020000000) else (if x < 199 then 0x2000200020000020 else 0x2000202020000020)
        else
         if x < 204 then
          if x < 202 then (if x < 201 then 0x2000000020002000 else 0x2000002020002000) else (if x < 203 then 0x2000000020002020 else 0x2000002020002020)
         else
          if x < 206 then (if x < 205 then 0x2000200020002000 else 0x2000202020002000) else (if x < 207 then 0x2000200020002020 else 0x2000202020002020)
       else
        if x < 216 then
         if x < 212 then
          if x < 210 then (if x < 209 then 0x2020000020000000 else 0x2020002020000000) else (if x < 211 then 0x2020000020000020 else 0x2020002020000020)
         else
          if x < 214 then (if x < 213 then 0x2020200020000000 else 0x2020202020000000) else (if x < 215 then 0x2020200020000020 else 0x2020202020000020)
        else
         if x < 220 then
          if x < 218 then (if x < 217 then 0x2020000020002000 else 0x2020002020002000) else (if x < 219 then 0x2020000020002020 else 0x2020002020002020)
         else
          if x < 222 then (if x < 221 then 0x2020200020002000 else 0x2020202020002000) else (if x < 223 then 0x2020200020002020 else 0x2020202020002020)
      else
       if x < 240 then
        if x < 232 then
         if x < 228 then
          if x < 226 then (if x < 225 then 0x2000000020200000 else 0x2000002020200000) else (if x < 227 then 0x2000000020200020 else 0x2000002020200020)
         else
          if x < 230 then (if x < 229 then 0x2000200020200000 else 0x2000202020200000) else (if x < 231 then 0x2000200020200020 else 0x2000202020200020)
        else
         if x < 236 then
          if x < 234 then (if x < 233 then 0x2000000020202000 else 0x2000002020202000) else (if x < 235 then 0x2000000020202020 else 0x2000002020202020)
         else
          if x < 238 then (if x < 237 then 0x2000200020202000 else 0x2000202020202000) else (if x < 239 then 0x2000200020202020 else 0x2000202020202020)
       else
        if x < 248 then
         if x < 244 then
          if x < 242 then (if x < 241 then 0x2020000020200000 else 0x2020002020200000) else (if x < 243 then 0x2020000020200020 else 0x2020002020200020)
         else
          if x < 246 then (if x < 245 then 0x2020200020200000 else 0x2020202020200000) else (if x < 247 then 0x2020200020200020 else 0x2020202020200020)
        else
         if x < 252 then
          if x < 250 then (if x < 249 then 0x2020000020202000 else 0x2020002020202000) else (if x < 251 then 0x2020000020202020 else 0x2020002020202020)
         else
          if x < 254 then (if x < 253 then 0x2020200020202000 else 0x2020202020202000) else (if x < 255 then 0x2020200020202020 else 0x2020202020202020)
  }

  function Fp0(x: bv8): bv64 {
    if x < 128 then
     if x < 64 then
      if x < 32 then
       if x < 16 then
        if x < 8 then
         if x < 4 then
          if x < 2 then (if x < 1 then 0x0000000000000000 else 0x0000008000000000) else (if x < 3 then 0x0000000002000000 else 0x0000008002000000)
         else
          if x < 6 then (if x < 5 then 0x0000000000020000 else 0x0000008000020000) else (if x < 7 then 0x0000000002020000 else 0x0000008002020000)
        else
         if x < 12 then
          if x < 10 then (if x < 9 then 0x0000000000000200 else 0x0000008000000200) else (if x < 11 then 0x0000000002000200 else 0x0000008002000200)
         else
          if x < 14 then (if x < 13 then 0x0000000000020200 else 0x0000008000020200) else (if x < 15 then 0x0000000002020200 else 0x0000008002020200)
       else
        if x < 24 then
         if x < 20 then
          if x < 18 then (if x < 17 then 0x0000000000000002 else 0x0000008000000002) else (if x < 19 then 0x0000000002000002 else 0x0000008002000002)
         else
          if x < 22 then (if x < 21 then 0x0000000000020002 else 0x0000008000020002) else (if x < 23 then 0x0000000002020002 else 0x0000008002020002)
        else
         if x < 28 then
          if x < 26 then (if x < 25 then 0x0000000000000202 else 0x0000008000000202) else (if x < 27 then 0x0000000002000202 else 0x0000008002000202)
         else
          if x < 30 then (if x < 29 then 0x0000000000020202 else 0x0000008000020202) else (if x < 31 then 0x0000000002020202 else 0x0000008002020202)
      else
       if x < 48 then
        if x < 40 then
         if x < 36 then
          if x < 34 then (if x < 33 then 0x0200000000000000 else 0x0200008000000000) else (if x < 35 then 0x0200000002000000 else 0x0200008002000000)
         else
          if x < 38 then (if x < 37 then 0x0200000000020000 else 0x0200008000020000) else (if x < 39 then 0x0200000002020000 else 0x0200008002020000)
        else
         if x < 44 then
          if x < 42 then (if x < 41 then 0x0200000000000200 else 0x0200008000000200) else (if x < 43 then 0x0200000002000200 else 0x0200008002000200)
         else
          if x < 46 then (if x < 45 then 0x0200000000020200 else 0x0200008000020200) else (if x < 47 then 0x0200000002020200 else 0x0200008002020200)
       else
        if x < 56 then
         if x < 52 then
          if x < 50 then (if x < 49 then 0x0200000000000002 else 0x0200008000000002) else (if x < 51 then 0x0200000002000002 else 0x0200008002000002)
         else
          if x < 54 then (if x < 53 then 0x0200000000020002 else 0x0200008000020002) else (if x < 55 then 0x0200000002020002 else 0x0200008002020002)
        else
         if x < 60 then
          if x < 58 then (if x < 57 then 0x0200000000000202 else 0x0200008000000202) else (if x < 59 then 0x0200000002000202 else 0x0200008002000202)
         else
          if x < 62 then (if x < 61 then 0x0200000000020202 else 0x0200008000020202) else (if x < 63 then 0x0200000002020202 else 0x0200008002020202)
     else
      if x < 96 then
       if x < 80 then
        if x < 72 then
         if x < 68 then
          if x < 66 then (if x < 65 then 0x0002000000000000 else 0x0002008000000000) else (if x < 67 then 0x0002000002000000 else 0x0002008002000000)
         else
          if x < 70 then (if x < 69 then 0x0002000000020000 else 0x0002008000020000) else (if x < 71 then 0x0002000002020000 else 0x0002008002020000)
        else
         if x < 76 then
          if x < 74 then (if x < 73 then 0x0002000000000200 else 0x0002008000000200) else (if x < 75 then 0x0002000002000200 else 0x0002008002000200)
         else
          if x < 78 then (if x < 77 then 0x0002000000020200 else 0x0002008000020200) else (if x < 79 then 0x0002000002020200 else 0x0002008002020200)
       else
        if x < 88 then
         if x < 84 then
          if x < 82 then (if x < 81 then 0x0002000000000002 else 0x0002008000000002) else (if x < 83 then 0x0002000002000002 else 0x0002008002000002)
         else
          if x < 86 then (if x < 85 then 0x0002000000020002 else 0x0002008000020002) else (if x < 87 then 0x0002000002020002 else 0x0002008002020002)
        else
         if x < 92 then
          if x < 90 then (if x < 89 then 0x0002000000000202 else 0x0002008000000202) else (if x < 91 then 0x0002000002000202 else 0x0002008002000202)
         else
          if x < 94 then (if x < 93 then 0x0002000000020202 else 0x0002008000020202) else (if x < 95 then 0x0002000002020202 else 0x0002008002020202)
      else
       if x < 112 then
        if x < 104 then
         if x < 100 then
          if x < 98 then (if x < 97 then 0x0202000000000000 else 0x0202008000000000) else (if x < 99 then 0x0202000002000000 else 0x0202008002000000)
         else
          if x < 102 then (if x < 101 then 0x0202000000020000 else 0x0202008000020000) else (if x < 103 then 0x0202000002020000 else 0x0202008002020000)
        else
         if x < 108 then
          if x < 106 then (if x < 105 then 0x0202000000000200 else 0x0202008000000200) else (if x < 107 then 0x0202000002000200 else 0x0202008002000200)
         else
          if x < 110 then (if x < 109 then 0x0202000000020200 else 0x0202008000020200) else (if x < 111 then 0x0202000002020200 else 0x0202008002020200)
       else
        if x < 120 then
         if x < 116 then
          if x < 114 then (if x < 113 then 0x0202000000000002 else 0x0202008000000002) else (if x < 115 then 0x0202000002000002 else 0x0202008002000002)
         else
          if x < 118 then (if x < 117 then 0x0202000000020002 else 0x0202008000020002) else (if x < 119 then 0x0202000002020002 else 0x0202008002020002)
        else
         if x < 124 then
          if x < 122 then (if x < 121 then 0x0202000000000202 else 0x0202008000000202) else (if x < 123 then 0x0202000002000202 else 0x0202008002000202)
         else
          if x < 126 then (if x < 125 then 0x0202000000020202 else 0x0202008000020202) else (if x < 127 then 0x0202000002020202 else 0x0202008002020202)
    else
     if x < 192 then
      if x < 160 then
       if x < 144 then
        if x < 136 then
         if x < 132 then
          if x < 130 then (if x < 129 then 0x0000020000000000 else 0x0000028000000000) else (if x < 131 then 0x0000020002000000 else 0x0000028002000000)
         else
          if x < 134 then (if x < 133 then 0x0000020000020000 else 0x0000028000020000) else (if x < 135 then 0x0000020002020000 else 0x0000028002020000)
        else
         if x < 140 then
          if x < 138 then (if x < 137 then 0x0000020000000200 else 0x0000028000000200) else (if x < 139 then 0x0000020002000200 else 0x0000028002000200)
         else
          if x < 142 then (if x < 141 then 0x0000020000020200 else 0x0000028000020200) else (if x < 143 then 0x0000020002020200 else 0x0000028002020200)
       else
        if x < 152 then
         if x < 148 then
          if x < 146 then (if x < 145 then 0x0000020000000002 else 0x0000028000000002) else (if x < 147 then 0x0000020002000002 else 0x0000028002000002)
         else
          if x < 150 then (if x < 149 then 0x0000020000020002 else 0x0000028000020002) else (if x < 151 then 0x0000020002020002 else 0x0000028002020002)
        else
         if x < 156 then
          if x < 154 then (if x < 153 then 0x0000020000000202 else 0x0000028000000202) else (if x < 155 then 0x0000020002000202 else 0x0000028002000202)
         else
          if x < 158 then (if x < 157 then 0x0000020000020202 else 0x0000028000020202) else (if x < 159 then 0x0000020002020202 else 0x0000028002020202)
      else
       if x < 176 then
        if x < 168 then
         if x < 164 then
          if x < 162 then (if x < 161 then 0x0200020000000000 else 0x0200028000000000) else (if x < 163 then 0x0200020002000000 else 0x0200028002000000)
         else
          if x < 166 then (if x < 165 then 0x0200020000020000 else 0x0200028000020000) else (if x < 167 then 0x0200020002020000 else 0x0200028002020000)
        else
         if x < 172 then
          if x < 170 then (if x < 169 then 0x0200020000000200 else 0x0200028000000200) else (if x < 171 then 0x0200020002000200 else 0x0200028002000200)
         else
          if x < 174 then (if x < 173 then 0x0200020000020200 else 0x0200028000020200) else (if x < 175 then 0x0200020002020200 else 0x0200028002020200)
       else
        if x < 184 then
         if x < 180 then
          if x < 178 then (if x < 177 then 0x0200020000000002 else 0x0200028000000002) else (if x < 179 then 0x0200020002000002 else 0x0200028002000002)
         else
          if x < 182 then (if x < 181 then 0x0200020000020002 else 0x0200028000020002) else (if x < 183 then 0x0200020002020002 else 0x0200028002020002)
        else
         if x < 188 then
          if x < 186 then (if x < 185 then 0x0200020000000202 else 0x0200028000000202) else (if x < 187 then 0x0200020002000202 else 0x0200028002000202)
         else
          if x < 190 then (if x < 189 then 0x0200020000020202 else 0x0200028000020202) else (if x < 191 then 0x0200020002020202 else 0x0200028002020202)
     else
      if x < 224 then
       if x < 208 then
        if x < 200 then
         if x < 196 then
          if x < 194 then (if x < 193 then 0x0002020000000000 else 0x0002028000000000) else (if x < 195 then 0x0002020002000000 else 0x0002028002000000)
         else
          if x < 198 then (if x < 197 then 0x0002020000020000 else 0x0002028000020000) else (if x < 199 then 0x0002020002020000 else 0x0002028002020000)
        else
         if x < 204 then
          if x < 202 then (if x < 201 then 0x0002020000000200 else 0x0002028000000200) else (if x < 203 then 0x0002020002000200 else 0x0002028002000200)
         else
          if x < 206 then (if x < 205 then 0x0002020000020200 else 0x0002028000020200) else (if x < 207 then 0x0002020002020200 else 0x0002028002020200)
       else
        if x < 216 then
         if x < 212 then
          if x < 210 then (if x < 209 then 0x0002020000000002 else 0x0002028000000002) else (if x < 211 then 0x0002020002000002 else 0x0002028002000002)
         else
          if x < 214 then (if x < 213 then 0x0002020000020002 else 0x0002028000020002) else (if x < 215 then 0x0002020002020002 else 0x0002028002020002)
        else
         if x < 220 then
          if x < 218 then (if x < 217 then 0x0002020000000202 else 0x0002028000000202) else (if x < 219 then 0x0002020002000202 else 0x0002028002000202)
         else
          if x < 222 then (if x < 221 then 0x0002020000020202 else 0x0002028000020202) else (if x < 223 then 0x0002020002020202 else 0x0002028002020202)
      else
       if x < 240 then
        if x < 232 then
         if x < 228 then
          if x < 226 then (if x < 225 then 0x0202020000000000 else 0x0202028000000000) else (if x < 227 then 0x0202020002000000 else 0x0202028002000000)
         else
          if x < 230 then (if x < 229 then 0x0202020000020000 else 0x0202028000020000) else (if x < 231 then 0x0202020002020000 else 0x0202028002020000)
        else
         if x < 236 then
          if x < 234 then (if x < 233 then 0x0202020000000200 else 0x0202028000000200) else (if x < 235 then 0x0202020002000200 else 0x0202028002000200)
         else
          if x < 238 then (if x < 237 then 0x0202020000020200 else 0x0202028000020200) else (if x < 239 then 0x0202020002020200 else 0x0202028002020200)
       else
        if x < 248 then
         if x < 244 then
          if x < 242 then (if x < 241 then 0x0202020000000002 else 0x0202028000000002) else (if x < 243 then 0x0202020002000002 else 0x0202028002000002)
         else
          if x < 246 then (if x < 245 then 0x0202020000020002 else 0x0202028000020002) else (if x < 247 then 0x0202020002020002 else 0x0202028002020002)
        else
         if x < 252 then
          if x < 250 then (if x < 249 then 0x0202020000000202 else 0x0202028000000202) else (if x < 251 then 0x0202020002000202 else 0x0202028002000202)
         else
          if x < 254 then (if x < 253 then 0x0202020000020202 else 0x0202028000020202) else (if x < 255 then 0x0202020002020202 else 0x0202028002020202)
  }

  function Fp1(x: bv8): bv64 {
    if x < 128 then
     if x < 64 then
      if x < 32 then
       if x < 16 then
        if x < 8 then
         if x < 4 then
          if x < 2 then (if x < 1 then 0x0000000000000000 else 0x0000000200000000) else (if x < 3 then 0x0000000008000000 else 0x0000000208000000)
         else
          if x < 6 then (if x < 5 then 0x0000000000080000 else 0x0000000200080000) else (if x < 7 then 0x0000000008080000 else 0x0000000208080000)
        else
         if x < 12 then
          if x < 10 then (if x < 9 then 0x0000000000000800 else 0x0000000200000800) else (if x < 11 then 0x0000000008000800 else 0x0000000208000800)
         else
          if x < 14 then (if x < 13 then 0x0000000000080800 else 0x0000000200080800) else (if x < 15 then 0x0000000008080800 else 0x0000000208080800)
       else
        if x < 24 then
         if x < 20 then
          if x < 18 then (if x < 17 then 0x0000000000000008 else 0x0000000200000008) else (if x < 19 then 0x0000000008000008 else 0x0000000208000008)
         else
          if x < 22 then (if x < 21 then 0x0000000000080008 else 0x0000000200080008) else (if x < 23 then 0x0000000008080008 else 0x0000000208080008)
        else
         if x < 28 then
          if x < 26 then (if x < 25 then 0x0000000000000808 else 0x0000000200000808) else (if x < 27 then 0x0000000008000808 else 0x0000000208000808)
         else
          if x < 30 then (if x < 29 then 0x0000000000080808 else 0x0000000200080808) else (if x < 31 then 0x0000000008080808 else 0x0000000208080808)
      else
       if x < 48 then
        if x < 40 then
         if x < 36 then
          if x < 34 then (if x < 33 then 0x0800000000000000 else 0x0800000200000000) else (if x < 35 then 0x0800000008000000 else 0x0800000208000000)
         else
          if x < 38 then (if x < 37 then 0x0800000000080000 else 0x0800000200080000) else (if x < 39 then 0x0800000008080000 else 0x0800000208080000)
        else
         if x < 44 then
          if x < 42 then (if x < 41 then 0x0800000000000800 else 0x0800000200000800) else (if x < 43 then 0x0800000008000800 else 0x0800000208000800)
         else
          if x < 46 then (if x < 45 then 0x0800000000080800 else 0x0800000200080800) else (if x < 47 then 0x0800000008080800 else 0x0800000208080800)
       else
        if x < 56 then
         if x < 52 then
          if x < 50 then (if x < 49 then 0x0800000000000008 else 0x0800000200000008) else (if x < 51 then 0x0800000008000008 else 0x0800000208000008)
         else
          if x < 54 then (if x < 53 then 0x0800000000080008 else 0x0800000200080008) else (if x < 55 then 0x0800000008080008 else 0x0800000208080008)
        else
         if x < 60 then
          if x < 58 then (if x < 57 then 0x0800000000000808 else 0x0800000200000808) else (if x < 59 then 0x0800000008000808 else 0x0800000208000808)
         else
          if x < 62 then (if x < 61 then 0x0800000000080808 else 0x0800000200080808) else (if x < 63 then 0x0800000008080808 else 0x0800000208080808)
     else
      if x < 96 then
       if x < 80 then
        if x < 72 then
         if x < 68 then
          if x < 66 then (if x < 65 then 0x0008000000000000 else 0x0008000200000000) else (if x < 67 then 0x0008000008000000 else 0x0008000208000000)
         else
          if x < 70 then (if x < 69 then 0x0008000000080000 else 0x0008000200080000) else (if x < 71 then 0x0008000008080000 else 0x0008000208080000)
        else
         if x < 76 then
          if x < 74 then (if x < 73 then 0x0008000000000800 else 0x0008000200000800) else (if x < 75 then 0x0008000008000800 else 0x0008000208000800)
         else
          if x < 78 then (if x < 77 then 0x0008000000080800 else 0x0008000200080800) else (if x < 79 then 0x0008000008080800 else 0x0008000208080800)
       else
        if x < 88 then
         if x < 84 then
          if x < 82 then (if x < 81 then 0x0008000000000008 else 0x0008000200000008) else (if x < 83 then 0x0008000008000008 else 0x0008000208000008)
         else
          if x < 86 then (if x < 85 then 0x0008000000080008 else 0x0008000200080008) else (if x < 87 then 0x0008000008080008 else 0x0008000208080008)
        else
         if x < 92 then
          if x < 90 then (if x < 89 then 0x0008000000000808 else 0x0008000200000808) else (if x < 91 then 0x0008000008000808 else 0x0008000208000808)
         else
          if x < 94 then (if x < 93 then 0x0008000000080808 else 0x0008000200080808) else (if x < 95 then 0x0008000008080808 else 0x0008000208080808)
      else
       if x < 112 then
        if x < 104 then
         if x < 100 then
          if x < 98 then (if x < 97 then 0x0808000000000000 else 0x0808000200000000) else (if x < 99 then 0x0808000008000000 else 0x0808000208000000)
         else
          if x < 102 then (if x < 101 then 0x0808000000080000 else 0x0808000200080000) else (if x < 103 then 0x0808000008080000 else 0x0808000208080000)
        else
         if x < 108 then
          if x < 106 then (if x < 105 then 0x0808000000000800 else 0x0808000200000800) else (if x < 107 then 0x0808000008000800 else 0x0808000208000800)
         else
          if x < 110 then (if x < 109 then 0x0808000000080800 else 0x0808000200080800) else (if x < 111 then 0x0808000008080800 else 0x0808000208080800)
       else
        if x < 120 then
         if x < 116 then
          if x < 114 then (if x < 113 then 0x0808000000000008 else 0x0808000200000008) else (if x < 115 then 0x0808000008000008 else 0x0808000208000008)
         else
          if x < 118 then (if x < 117 then 0x0808000000080008 else 0x0808000200080008) else (if x < 119 then 0x0808000008080008 else 0x0808000208080008)
        else
         if x < 124 then
          if x < 122 then (if x < 121 then 0x0808000000000808 else 0x0808000200000808) else (if x < 123 then 0x0808000008000808 else 0x0808000208000808)
         else
          if x < 126 then (if x < 125 then 0x0808000000080808 else 0x0808000200080808) else (if x < 127 then 0x0808000008080808 else 0x0808000208080808)
    else
     if x < 192 then
      if x < 160 then
       if x < 144 then
        if x < 136 then
         if x < 132 then
          if x < 130 then (if x < 129 then 0x0000080000000000 else 0x0000080200000000) else (if x < 131 then 0x0000080008000000 else 0x0000080208000000)
         else
          if x < 134 then (if x < 133 then 0x0000080000080000 else 0x0000080200080000) else (if x < 135 then 0x0000080008080000 else 0x0000080208080000)
        else
         if x < 140 then
          if x < 138 then (if x < 137 then 0x0000080000000800 else 0x0000080200000800) else (if x < 139 then 0x0000080008000800 else 0x0000080208000800)
         else
          if x < 142 then (if x < 141 then 0x0000080000080800 else 0x0000080200080800) else (if x < 143 then 0x0000080008080800 else 0x0000080208080800)
       else
        if x < 152 then
         if x < 148 then
          if x < 146 then (if x < 145 then 0x0000080000000008 else 0x0000080200000008) else (if x < 147 then 0x0000080008000008 else 0x0000080208000008)
         else
          if x < 150 then (if x < 149 then 0x0000080000080008 else 0x0000080200080008) else (if x < 151 then 0x0000080008080008 else 0x0000080208080008)
        else
         if x < 156 then
          if x < 154 then (if x < 153 then 0x0000080000000808 else 0x0000080200000808) else (if x < 155 then 0x0000080008000808 else 0x0000080208000808)
         else
          if x < 158 then (if x < 157 then 0x0000080000080808 else 0x0000080200080808) else (if x < 159 then 0x0000080008080808 else 0x0000080208080808)
      else
       if x < 176 then
        if x < 168 then
         if x < 164 then
          if x < 162 then (if x < 161 then 0x0800080000000000 else 0x0800080200000000) else (if x < 163 then 0x0800080008000000 else 0x0800080208000000)
         else
          if x < 166 then (if x < 165 then 0x0800080000080000 else 0x0800080200080000) else (if x < 167 then 0x0800080008080000 else 0x0800080208080000)
        else
         if x < 172 then
          if x < 170 then (if x < 169 then 0x0800080000000800 else 0x0800080200000800) else (if x < 171 then 0x0800080008000800 else 0x0800080208000800)
         else
          if x < 174 then (if x < 173 then 0x0800080000080800 else 0x0800080200080800) else (if x < 175 then 0x0800080008080800 else 0x0800080208080800)
       else
        if x < 184 then
         if x < 180 then
          if x < 178 then (if x < 177 then 0x0800080000000008 else 0x0800080200000008) else (if x < 179 then 0x0800080008000008 else 0x0800080208000008)
         else
          if x < 182 then (if x < 181 then 0x0800080000080008 else 0x0800080200080008) else (if x < 183 then 0x0800080008080008 else 0x0800080208080008)
        else
         if x < 188 then
          if x < 186 then (if x < 185 then 0x0800080000000808 else 0x0800080200000808) else (if x < 187 then 0x0800080008000808 else 0x0800080208000808)
         else
          if x < 190 then (if x < 189 then 0x0800080000080808 else 0x0800080200080808) else (if x < 191 then 0x0800080008080808 else 0x0800080208080808)
     else
      if x < 224 then
       if x < 208 then
        if x < 200 then
         if x < 196 then
          if x < 194 then (if x < 193 then 0x0008080000000000 else 0x0008080200000000) else (if x < 195 then 0x0008080008000000 else 0x0008080208000000)
         else
          if x < 198 then (if x < 197 then 0x0008080000080000 else 0x0008080200080000) else (if x < 199 then 0x0008080008080000 else 0x0008080208080000)
        else
         if x < 204 then
          if x < 202 then (if x < 201 then 0x0008080000000800 else 0x0008080200000800) else (if x < 203 then 0x0008080008000800 else 0x0008080208000800)
         else
          if x < 206 then (if x < 205 then 0x0008080000080800 else 0x0008080200080800) else (if x < 207 then 0x0008080008080800 else 0x0008080208080800)
       else
        if x < 216 then
         if x < 212 then
          if x < 210 then (if x < 209 then 0x0008080000000008 else 0x0008080200000008) else (if x < 211 then 0x0008080008000008 else 0x0008080208000008)
         else
          if x < 214 then (if x < 213 then 0x0008080000080008 else 0x0008080200080008) else (if x < 215 then 0x0008080008080008 else 0x0008080208080008)
        else
         if x < 220 then
          if x < 218 then (if x < 217 then 0x0008080000000808 else 0x0008080200000808) else (if x < 219 then 0x0008080008000808 else 0x0008080208000808)
         else
          if x < 222 then (if x < 221 then 0x0008080000080808 else 0x0008080200080808) else (if x < 223 then 0x0008080008080808 else 0x0008080208080808)
      else
       if x < 240 then
        if x < 232 then
         if x < 228 then
          if x < 226 then (if x < 225 then 0x0808080000000000 else 0x0808080200000000) else (if x < 227 then 0x0808080008000000 else 0x0808080208000000)
         else
          if x < 230 then (if x < 229 then 0x0808080000080000 else 0x0808080200080000) else (if x < 231 then 0x0808080008080000 else 0x0808080208080000)
        else
         if x < 236 then
          if x < 234 then (if x < 233 then 0x0808080000000800 else 0x0808080200000800) else (if x < 235 then 0x0808080008000800 else 0x0808080208000800)
         else
          if x < 238 then (if x < 237 then 0x0808080000080800 else 0x0808080200080800) else (if x < 239 then 0x0808080008080800 else 0x0808080208080800)
       else
        if x < 248 then
         if x < 244 then
          if x < 242 then (if x < 241 then 0x0808080000000008 else 0x0808080200000008) else (if x < 243 then 0x0808080008000008 else 0x0808080208000008)
         else
          if x < 246 then (if x < 245 then 0x0808080000080008 else 0x0808080200080008) else (if x < 247 then 0x0808080008080008 else 0x0808080208080008)
        else
         if x < 252 then
          if x < 250 then (if x < 249 then 0x0808080000000808 else 0x0808080200000808) else (if x < 251 then 0x0808080008000808 else 0x0808080208000808)
         else
          if x < 254 then (if x < 253 then 0x0808080000080808 else 0x0808080200080808) else (if x < 255 then 0x0808080008080808 else 0x0808080208080808)
  }

  function Fp2(x: bv8): bv64 {
    if x < 128 then
     if x < 64 then
      if x < 32 then
       if x < 16 then
        if x < 8 then
         if x < 4 then
          if x < 2 then (if x < 1 then 0x0000000000000000 else 0x0000000800000000) else (if x < 3 then 0x0000000020000000 else 0x0000000820000000)
         else
          if x < 6 then (if x < 5 then 0x0000000000200000 else 0x0000000800200000) else (if x < 7 then 0x0000000020200000 else 0x0000000820200000)
        else
         if x < 12 then
          if x < 10 then (if x < 9 then 0x0000000000002000 else 0x0000000800002000) else (if x < 11 then 0x0000000020002000 else 0x0000000820002000)
         else
          if x < 14 then (if x < 13 then 0x0000000000202000 else 0x0000000800202000) else (if x < 15 then 0x0000000020202000 else 0x0000000820202000)
       else
        if x < 24 then
         if x < 20 then
          if x < 18 then (if x < 17 then 0x0000000000000020 else 0x0000000800000020) else (if x < 19 then 0x0000000020000020 else 0x0000000820000020)
         else
          if x < 22 then (if x < 21 then 0x0000000000200020 else 0x0000000800200020) else (if x < 23 then 0x0000000020200020 else 0x0000000820200020)
        else
         if x < 28 then
          if x < 26 then (if x < 25 then 0x0000000000002020 else 0x0000000800002020) else (if x < 27 then 0x0000000020002020 else 0x0000000820002020)
         else
          if x < 30 then (if x < 29 then 0x0000000000202020 else 0x0000000800202020) else (if x < 31 then 0x0000000020202020 else 0x0000000820202020)
      else
       if x < 48 then
        if x < 40 then
         if x < 36 then
          if x < 34 then (if x < 33 then 0x2000000000000000 else 0x2000000800000000) else (if x < 35 then 0x2000000020000000 else 0x2000000820000000)
         else
          if x < 38 then (if x < 37 then 0x2000000000200000 else 0x2000000800200000) else (if x < 39 then 0x2000000020200000 else 0x2000000820200000)
        else
         if x < 44 then
          if x < 42 then (if x < 41 then 0x2000000000002000 else 0x2000000800002000) else (if x < 43 then 0x2000000020002000 else 0x2000000820002000)
         else
          if x < 46 then (if x < 45 then 0x2000000000202000 else 0x2000000800202000) else (if x < 47 then 0x2000000020202000 else 0x2000000820202000)
       else
        if x < 56 then
         if x < 52 then
          if x < 50 then (if x < 49 then 0x2000000000000020 else 0x2000000800000020) else (if x < 51 then 0x2000000020000020 else 0x2000000820000020)
         else
          if x < 54 then (if x < 53 then 0x2000000000200020 else 0x2000000800200020) else (if x < 55 then 0x2000000020200020 else 0x2000000820200020)
        else
         if x < 60 then
          if x < 58 then (if x < 57 then 0x2000000000002020 else 0x2000000800002020) else (if x < 59 then 0x2000000020002020 else 0x2000000820002020)
         else
          if x < 62 then (if x < 61 then 0x2000000000202020 else 0x2000000800202020) else (if x < 63 then 0x2000000020202020 else 0x2000000820202020)
     else
      if x < 96 then
       if x < 80 then
        if x < 72 then
         if x < 68 then
          if x < 66 then (if x < 65 then 0x0020000000000000 else 0x0020000800000000) else (if x < 67 then 0x0020000020000000 else 0x0020000820000000)
         else
          if x < 70 then (if x < 69 then 0x0020000000200000 else 0x0020000800200000) else (if x < 71 then 0x0020000020200000 else 0x0020000820200000)
        else
         if x < 76 then
          if x < 74 then (if x < 73 then 0x0020000000002000 else 0x0020000800002000) else (if x < 75 then 0x0020000020002000 else 0x0020000820002000)
         else
          if x < 78 then (if x < 77 then 0x0020000000202000 else 0x0020000800202000) else (if x < 79 then 0x0020000020202000 else 0x0020000820202000)
       else
        if x < 88 then
         if x < 84 then
          if x < 82 then (if x < 81 then 0x0020000000000020 else 0x0020000800000020) else (if x < 83 then 0x0020000020000020 else 0x0020000820000020)
         else
          if x < 86 then (if x < 85 then 0x0020000000200020 else 0x0020000800200020) else (if x < 87 then 0x0020000020200020 else 0x0020000820200020)
        else
         if x < 92 then
          if x < 90 then (if x < 89 then 0x0020000000002020 else 0x0020000800002020) else (if x < 91 then 0x0020000020002020 else 0x0020000820002020)
         else
          if x < 94 then (if x < 93 then 0x0020000000202020 else 0x0020000800202020) else (if x < 95 then 0x0020000020202020 else 0x0020000820202020)
      else
       if x < 112 then
        if x < 104 then
         if x < 100 then
          if x < 98 then (if x < 97 then 0x2020000000000000 else 0x2020000800000000) else (if x < 99 then 0x2020000020000000 else 0x2020000820000000)
         else
          if x < 102 then (if x < 101 then 0x2020000000200000 else 0x2020000800200000) else (if x < 103 then 0x2020000020200000 else 0x2020000820200000)
        else
         if x < 108 then
          if x < 106 then (if x < 105 then 0x2020000000002000 else 0x2020000800002000) else (if x < 107 then 0x2020000020002000 else 0x2020000820002000)
         else
          if x < 110 then (if x < 109 then 0x2020000000202000 else 0x2020000800202000) else (if x < 111 then 0x2020000020202000 else 0x2020000820202000)
       else
        if x < 120 then
         if x < 116 then
          if x < 114 then (if x < 113 then 0x2020000000000020 else 0x2020000800000020) else (if x < 115 then 0x2020000020000020 else 0x2020000820000020)
         else
          if x < 118 then (if x < 117 then 0x2020000000200020 else 0x2020000800200020) else (if x < 119 then 0x2020000020200020 else 0x2020000820200020)
        else
         if x < 124 then
          if x < 122 then (if x < 121 then 0x2020000000002020 else 0x2020000800002020) else (if x < 123 then 0x2020000020002020 else 0x2020000820002020)
         else
          if x < 126 then (if x < 125 then 0x2020000000202020 else 0x2020000800202020) else (if x < 127 then 0x2020000020202020 else 0x2020000820202020)
    else
     if x < 192 then
      if x < 160 then
       if x < 144 then
        if x < 136 then
         if x < 132 then
          if x < 130 then (if x < 129 then 0x0000200000000000 else 0x0000200800000000) else (if x < 131 then 0x0000200020000000 else 0x0000200820000000)
         else
          if x < 134 then (if x < 133 then 0x0000200000200000 else 0x0000200800200000) else (if x < 135 then 0x0000200020200000 else 0x0000200820200000)
        else
         if x < 140 then
          if x < 138 then (if x < 137 then 0x0000200000002000 else 0x0000200800002000) else (if x < 139 then 0x0000200020002000 else 0x0000200820002000)
         else
          if x < 142 then (if x < 141 then 0x0000200000202000 else 0x0000200800202000) else (if x < 143 then 0x0000200020202000 else 0x0000200820202000)
       else
        if x < 152 then
         if x < 148 then
          if x < 146 then (if x < 145 then 0x0000200000000020 else 0x0000200800000020) else (if x < 147 then 0x0000200020000020 else 0x0000200820000020)
         else
          if x < 150 then (if x < 149 then 0x0000200000200020 else 0x0000200800200020) else (if x < 151 then 0x0000200020200020 else 0x0000200820200020)
        else
         if x < 156 then
          if x < 154 then (if x < 153 then 0x0000200000002020 else 0x0000200800002020) else (if x < 155 then 0x0000200020002020 else 0x0000200820002020)
         else
          if x < 158 then (if x < 157 then 0x0000200000202020 else 0x0000200800202020) else (if x < 159 then 0x0000200020202020 else 0x0000200820202020)
      else
       if x < 176 then
        if x < 168 then
         if x < 164 then
          if x < 162 then (if x < 161 then 0x2000200000000000 else 0x2000200800000000) else (if x < 163 then 0x2000200020000000 else 0x2000200820000000)
         else
          if x < 166 then (if x < 165 then 0x2000200000200000 else 0x2000200800200000) else (if x < 167 then 0x2000200020200000 else 0x2000200820200000)
        else
         if x < 172 then
          if x < 170 then (if x < 169 then 0x2000200000002000 else 0x2000200800002000) else (if x < 171 then 0x2000200020002000 else 0x2000200820002000)
         else
          if x < 174 then (if x < 173 then 0x2000200000202000 else 0x2000200800202000) else (if x < 175 then 0x2000200020202000 else 0x2000200820202000)
       else
        if x < 184 then
         if x < 180 then
          if x < 178 then (if x < 177 then 0x2000200000000020 else 0x2000200800000020) else (if x < 179 then 0x2000200020000020 else 0x2000200820000020)
         else
          if x < 182 then (if x < 181 then 0x2000200000200020 else 0x2000200800200020) else (if x < 183 then 0x2000200020200020 else 0x2000200820200020)
        else
         if x < 188 then
          if x < 186 then (if x < 185 then 0x2000200000002020 else 0x2000200800002020) else (if x < 187 then 0x2000200020002020 else 0x2000200820002020)
         else
          if x < 190 then (if x < 189 then 0x2000200000202020 else 0x2000200800202020) else (if x < 191 then 0x2000200020202020 else 0x2000200820202020)
     else
      if x < 224 then
       if x < 208 then
        if x < 200 then
         if x < 196 then
          if x < 194 then (if x < 193 then 0x0020200000000000 else 0x0020200800000000) else (if x < 195 then 0x0020200020000000 else 0x0020200820000000)
         else
          if x < 198 then (if x < 197 then 0x0020200000200000 else 0x0020200800200000) else (if x < 199 then 0x0020200020200000 else 0x0020200820200000)
        else
         if x < 204 then
          if x < 202 then (if x < 201 then 0x0020200000002000 else 0x0020200800002000) else (if x < 203 then 0x0020200020002000 else 0x0020200820002000)
         else
          if x < 206 then (if x < 205 then 0x0020200000202000 else 0x0020200800202000) else (if x < 207 then 0x0020200020202000 else 0x0020200820202000)
       else
        if x < 216 then
         if x < 212 then
          if x < 210 then (if x < 209 then 0x0020200000000020 else 0x0020200800000020) else (if x < 211 then 0x0020200020000020 else 0x0020200820000020)
         else
          if x < 214 then (if x < 213 then 0x0020200000200020 else 0x0020200800200020) else (if x < 215 then 0x0020200020200020 else 0x0020200820200020)
        else
         if x < 220 then
          if x < 218 then (if x < 217 then 0x0020200000002020 else 0x0020200800002020) else (if x < 219 then 0x0020200020002020 else 0x0020200820002020)
         else
          if x < 222 then (if x < 221 then 0x0020200000202020 else 0x0020200800202020) else (if x < 223 then 0x0020200020202020 else 0x0020200820202020)
      else
       if x < 240 then
        if x < 232 then
         if x < 228 then
          if x < 226 then (if x < 225 then 0x2020200000000000 else 0x2020200800000000) else (if x < 227 then 0x2020200020000000 else 0x2020200820000000)
         else
          if x < 230 then (if x < 229 then 0x2020200000200000 else 0x2020200800200000) else (if x < 231 then 0x2020200020200000 else 0x2020200820200000)
        else
         if x < 236 then
          if x < 234 then (if x < 233 then 0x2020200000002000 else 0x2020200800002000) else (if x < 235 then 0x2020200020002000 else 0x2020200820002000)
         else
          if x < 238 then (if x < 237 then 0x2020200000202000 else 0x2020200800202000) else (if x < 239 then 0x2020200020202000 else 0x2020200820202000)
       else
        if x < 248 then
         if x < 244 then
          if x < 242 then (if x < 241 then 0x2020200000000020 else 0x2020200800000020) else (if x < 243 then 0x2020200020000020 else 0x2020200820000020)
         else
          if x < 246 then (if x < 245 then 0x2020200000200020 else 0x2020200800200020) else (if x < 247 then 0x2020200020200020 else 0x2020200820200020)
        else
         if x < 252 then
          if x < 250 then (if x < 249 then 0x2020200000002020 else 0x2020200800002020) else (if x < 251 then 0x2020200020002020 else 0x2020200820002020)
         else
          if x < 254 then (if x < 253 then 0x2020200000202020 else 0x2020200800202020) else (if x < 255 then 0x2020200020202020 else 0x2020200820202020)
  }

  function Fp3(x: bv8): bv64 {
    if x < 128 then
     if x < 64 then
      if x < 32 then
       if x < 16 then
        if x < 8 then
         if x < 4 then
          if x < 2 then (if x < 1 then 0x0000000000000000 else 0x0000002000000000) else (if x < 3 then 0x0000000080000000 else 0x0000002080000000)
         else
          if x < 6 then (if x < 5 then 0x0000000000800000 else 0x0000002000800000) else (if x < 7 then 0x0000000080800000 else 0x0000002080800000)
        else
         if x < 12 then
          if x < 10 then (if x < 9 then 0x0000000000008000 else 0x0000002000008000) else (if x < 11 then 0x0000000080008000 else 0x0000002080008000)
         else
          if x < 14 then (if x < 13 then 0x0000000000808000 else 0x0000002000808000) else (if x < 15 then 0x0000000080808000 else 0x0000002080808000)
       else
        if x < 24 then
         if x < 20 then
          if x < 18 then (if x < 17 then 0x0000000000000080 else 0x0000002000000080) else (if x < 19 then 0x0000000080000080 else 0x0000002080000080)
         else
          if x < 22 then (if x < 21 then 0x0000000000800080 else 0x0000002000800080) else (if x < 23 then 0x0000000080800080 else 0x0000002080800080)
        else
         if x < 28 then
          if x < 26 then (if x < 25 then 0x0000000000008080 else 0x0000002000008080) else (if x < 27 then 0x0000000080008080 else 0x0000002080008080)
         else
          if x < 30 then (if x < 29 then 0x0000000000808080 else 0x0000002000808080) else (if x < 31 then 0x0000000080808080 else 0x0000002080808080)
      else
       if x < 48 then
        if x < 40 then
         if x < 36 then
          if x < 34 then (if x < 33 then 0x8000000000000000 else 0x8000002000000000) else (if x < 35 then 0x8000000080000000 else 0x8000002080000000)
         else
          if x < 38 then (if x < 37 then 0x8000000000800000 else 0x8000002000800000) else (if x < 39 then 0x8000000080800000 else 0x8000002080800000)
        else
         if x < 44 then
          if x < 42 then (if x < 41 then 0x8000000000008000 else 0x8000002000008000) else (if x < 43 then 0x8000000080008000 else 0x8000002080008000)
         else
          if x < 46 then (if x < 45 then 0x8000000000808000 else 0x8000002000808000) else (if x < 47 then 0x8000000080808000 else 0x8000002080808000)
       else
        if x < 56 then
         if x < 52 then
          if x < 50 then (if x < 49 then 0x8000000000000080 else 0x8000002000000080) else (if x < 51 then 0x8000000080000080 else 0x8000002080000080)
         else
          if x < 54 then (if x < 53 then 0x8000000000800080 else 0x8000002000800080) else (if x < 55 then 0x8000000080800080 else 0x8000002080800080)
        else
         if x < 60 then
          if x < 58 then (if x < 57 then 0x8000000000008080 else 0x8000002000008080) else (if x < 59 then 0x8000000080008080 else 0x8000002080008080)
         else
          if x < 62 then (if x < 61 then 0x8000000000808080 else 0x8000002000808080) else (if x < 63 then 0x8000000080808080 else 0x8000002080808080)
     else
      if x < 96 then
       if x < 80 then
        if x < 72 then
         if x < 68 then
          if x < 66 then (if x < 65 then 0x0080000000000000 else 0x0080002000000000) else (if x < 67 then 0x0080000080000000 else 0x0080002080000000)
         else
          if x < 70 then (if x < 69 then 0x0080000000800000 else 0x0080002000800000) else (if x < 71 then 0x0080000080800000 else 0x0080002080800000)
        else
         if x < 76 then
          if x < 74 then (if x < 73 then 0x0080000000008000 else 0x0080002000008000) else (if x < 75 then 0x0080000080008000 else 0x0080002080008000)
         else
          if x < 78 then (if x < 77 then 0x0080000000808000 else 0x0080002000808000) else (if x < 79 then 0x0080000080808000 else 0x0080002080808000)
       else
        if x < 88 then
         if x < 84 then
          if x < 82 then (if x < 81 then 0x0080000000000080 else 0x0080002000000080) else (if x < 83 then 0x0080000080000080 else 0x0080002080000080)
         else
          if x < 86 then (if x < 85 then 0x0080000000800080 else 0x0080002000800080) else (if x < 87 then 0x0080000080800080 else 0x0080002080800080)
        else
         if x < 92 then
          if x < 90 then (if x < 89 then 0x0080000000008080 else 0x0080002000008080) else (if x < 91 then 0x0080000080008080 else 0x0080002080008080)
         else
          if x < 94 then (if x < 93 then 0x0080000000808080 else 0x0080002000808080) else (if x < 95 then 0x0080000080808080 else 0x0080002080808080)
      else
       if x < 112 then
        if x < 104 then
         if x < 100 then
          if x < 98 then (if x < 97 then 0x8080000000000000 else 0x8080002000000000) else (if x < 99 then 0x8080000080000000 else 0x8080002080000000)
         else
          if x < 102 then (if x < 101 then 0x8080000000800000 else 0x8080002000800000) else (if x < 103 then 0x8080000080800000 else 0x8080002080800000)
        else
         if x < 108 then
          if x < 106 then (if x < 105 then 0x8080000000008000 else 0x8080002000008000) else (if x < 107 then 0x8080000080008000 else 0x8080002080008000)
         else
          if x < 110 then (if x < 109 then 0x8080000000808000 else 0x8080002000808000) else (if x < 111 then 0x8080000080808000 else 0x8080002080808000)
       else
        if x < 120 then
         if x < 116 then
          if x < 114 then (if x < 113 then 0x8080000000000080 else 0x8080002000000080) else (if x < 115 then 0x8080000080000080 else 0x8080002080000080)
         else
          if x < 118 then (if x < 117 then 0x8080000000800080 else 0x8080002000800080) else (if x < 119 then 0x8080000080800080 else 0x8080002080800080)
        else
         if x < 124 then
          if x < 122 then (if x < 121 then 0x8080000000008080 else 0x8080002000008080) else (if x < 123 then 0x8080000080008080 else 0x8080002080008080)
         else
          if x < 126 then (if x < 125 then 0x8080000000808080 else 0x8080002000808080) else (if x < 127 then 0x8080000080808080 else 0x8080002080808080)
    else
     if x < 192 then
      if x < 160 then
       if x < 144 then
        if x < 136 then
         if x < 132 then
          if x < 130 then (if x < 129 then 0x0000800000000000 else 0x0000802000000000) else (if x < 131 then 0x0000800080000000 else 0x0000802080000000)
         else
          if x < 134 then (if x < 133 then 0x0000800000800000 else 0x0000802000800000) else (if x < 135 then 0x0000800080800000 else 0x0000802080800000)
        else
         if x < 140 then
          if x < 138 then (if x < 137 then 0x0000800000008000 else 0x0000802000008000) else (if x < 139 then 0x0000800080008000 else 0x0000802080008000)
         else
          if x < 142 then (if x < 141 then 0x0000800000808000 else 0x0000802000808000) else (if x < 143 then 0x0000800080808000 else 0x0000802080808000)
       else
        if x < 152 then
         if x < 148 then
          if x < 146 then (if x < 145 then 0x0000800000000080 else 0x0000802000000080) else (if x < 147 then 0x0000800080000080 else 0x0000802080000080)
         else
          if x < 150 then (if x < 149 then 0x0000800000800080 else 0x0000802000800080) else (if x < 151 then 0x0000800080800080 else 0x0000802080800080)
        else
         if x < 156 then
          if x < 154 then (if x < 153 then 0x0000800000008080 else 0x0000802000008080) else (if x < 155 then 0x0000800080008080 else 0x0000802080008080)
         else
          if x < 158 then (if x < 157 then 0x0000800000808080 else 0x0000802000808080) else (if x < 159 then 0x0000800080808080 else 0x0000802080808080)
      else
       if x < 176 then
        if x < 168 then
         if x < 164 then
          if x < 162 then (if x < 161 then 0x8000800000000000 else 0x8000802000000000) else (if x < 163 then 0x8000800080000000 else 0x8000802080000000)
         else
          if x < 166 then (if x < 165 then 0x8000800000800000 else 0x8000802000800000) else (if x < 167 then 0x8000800080800000 else 0x8000802080800000)
        else
         if x < 172 then
          if x < 170 then (if x < 169 then 0x8000800000008000 else 0x8000802000008000) else (if x < 171 then 0x8000800080008000 else 0x8000802080008000)
         else
          if x < 174 then (if x < 173 then 0x8000800000808000 else 0x8000802000808000) else (if x < 175 then 0x8000800080808000 else 0x8000802080808000)
       else
        if x < 184 then
         if x < 180 then
          if x < 178 then (if x < 177 then 0x8000800000000080 else 0x8000802000000080) else (if x < 179 then 0x8000800080000080 else 0x8000802080000080)
         else
          if x < 182 then (if x < 181 then 0x8000800000800080 else 0x8000802000800080) else (if x < 183 then 0x8000800080800080 else 0x8000802080800080)
        else
         if x < 188 then
          if x < 186 then (if x < 185 then 0x8000800000008080 else 0x8000802000008080) else (if x < 187 then 0x8000800080008080 else 0x8000802080008080)
         else
          if x < 190 then (if x < 189 then 0x8000800000808080 else 0x8000802000808080) else (if x < 191 then 0x8000800080808080 else 0x8000802080808080)
     else
      if x < 224 then
       if x < 208 then
        if x < 200 then
         if x < 196 then
          if x < 194 then (if x < 193 then 0x0080800000000000 else 0x0080802000000000) else (if x < 195 then 0x0080800080000000 else 0x0080802080000000)
         else
          if x < 198 then (if x < 197 then 0x0080800000800000 else 0x0080802000800000) else (if x < 199 then 0x0080800080800000 else 0x0080802080800000)
        else
         if x < 204 then
          if x < 202 then (if x < 201 then 0x0080800000008000 else 0x0080802000008000) else (if x < 203 then 0x0080800080008000 else 0x0080802080008000)
         else
          if x < 206 then (if x < 205 then 0x0080800000808000 else 0x0080802000808000) else (if x < 207 then 0x0080800080808000 else 0x0080802080808000)
       else
        if x < 216 then
         if x < 212 then
          if x < 210 then (if x < 209 then 0x0080800000000080 else 0x0080802000000080) else (if x < 211 then 0x0080800080000080 else 0x0080802080000080)
         else
          if x < 214 then (if x < 213 then 0x0080800000800080 else 0x0080802000800080) else (if x < 215 then 0x0080800080800080 else 0x0080802080800080)
        else
         if x < 220 then
          if x < 218 then (if x < 217 then 0x0080800000008080 else 0x0080802000008080) else (if x < 219 then 0x0080800080008080 else 0x0080802080008080)
         else
          if x < 222 then (if x < 221 then 0x0080800000808080 else 0x0080802000808080) else (if x < 223 then 0x0080800080808080 else 0x0080802080808080)
      else
       if x < 240 then
        if x < 232 then
         if x < 228 then
          if x < 226 then (if x < 225 then 0x8080800000000000 else 0x8080802000000000) else (if x < 227 then 0x8080800080000000 else 0x8080802080000000)
         else
          if x < 230 then (if x < 229 then 0x8080800000800000 else 0x8080802000800000) else (if x < 231 then 0x8080800080800000 else 0x8080802080800000)
        else
         if x < 236 then
          if x < 234 then (if x < 233 then 0x8080800000008000 else 0x8080802000008000) else (if x < 235 then 0x8080800080008000 else 0x8080802080008000)
         else
          if x < 238 then (if x < 237 then 0x8080800000808000 else 0x8080802000808000) else (if x < 239 then 0x8080800080808000 else 0x8080802080808000)
       else
        if x < 248 then
         if x < 244 then
          if x < 242 then (if x < 241 then 0x8080800000000080 else 0x8080802000000080) else (if x < 243 then 0x8080800080000080 else 0x8080802080000080)
         else
          if x < 246 then (if x < 245 then 0x8080800000800080 else 0x8080802000800080) else (if x < 247 then 0x8080800080800080 else 0x8080802080800080)
        else
         if x < 252 then
          if x < 250 then (if x < 249 then 0x8080800000008080 else 0x8080802000008080) else (if x < 251 then 0x8080800080008080 else 0x8080802080008080)
         else
          if x < 254 then (if x < 253 then 0x8080800000808080 else 0x8080802000808080) else (if x < 255 then 0x8080800080808080 else 0x8080802080808080)
  }

  function Fp4(x: bv8): bv64 {
    if x < 128 then
     if x < 64 then
      if x < 32 then
       if x < 16 then
        if x < 8 then
         if x < 4 then
          if x < 2 then (if x < 1 then 0x0000000000000000 else 0x0000004000000000) else (if x < 3 then 0x0000000001000000 else 0x0000004001000000)
         else
          if x < 6 then (if x < 5 then 0x0000000000010000 else 0x0000004000010000) else (if x < 7 then 0x0000000001010000 else 0x0000004001010000)
        else
         if x < 12 then
          if x < 10 then (if x < 9 then 0x0000000000000100 else 0x0000004000000100) else (if x < 11 then 0x0000000001000100 else 0x0000004001000100)
         else
          if x < 14 then (if x < 13 then 0x0000000000010100 else 0x0000004000010100) else (if x < 15 then 0x0000000001010100 else 0x0000004001010100)
       else
        if x < 24 then
         if x < 20 then
          if x < 18 then (if x < 17 then 0x0000000000000001 else 0x0000004000000001) else (if x < 19 then 0x0000000001000001 else 0x0000004001000001)
         else
          if x < 22 then (if x < 21 then 0x0000000000010001 else 0x0000004000010001) else (if x < 23 then 0x0000000001010001 else 0x0000004001010001)
        else
         if x < 28 then
          if x < 26 then (if x < 25 then 0x0000000000000101 else 0x0000004000000101) else (if x < 27 then 0x0000000001000101 else 0x0000004001000101)
         else
          if x < 30 then (if x < 29 then 0x0000000000010101 else 0x0000004000010101) else (if x < 31 then 0x0000000001010101 else 0x0000004001010101)
      else
       if x < 48 then
        if x < 40 then
         if x < 36 then
          if x < 34 then (if x < 33 then 0x0100000000000000 else 0x0100004000000000) else (if x < 35 then 0x0100000001000000 else 0x0100004001000000)
         else
          if x < 38 then (if x < 37 then 0x0100000000010000 else 0x0100004000010000) else (if x < 39 then 0x0100000001010000 else 0x0100004001010000)
        else
         if x < 44 then
          if x < 42 then (if x < 41 then 0x0100000000000100 else 0x0100004000000100) else (if x < 43 then 0x0100000001000100 else 0x0100004001000100)
         else
          if x < 46 then (if x < 45 then 0x0100000000010100 else 0x0100004000010100) else (if x < 47 then 0x0100000001010100 else 0x0100004001010100)
       else
        if x < 56 then
         if x < 52 then
          if x < 50 then (if x < 49 then 0x0100000000000001 else 0x0100004000000001) else (if x < 51 then 0x0100000001000001 else 0x0100004001000001)
         else
          if x < 54 then (if x < 53 then 0x0100000000010001 else 0x0100004000010001) else (if x < 55 then 0x0100000001010001 else 0x0100004001010001)
        else
         if x < 60 then
          if x < 58 then (if x < 57 then 0x0100000000000101 else 0x0100004000000101) else (if x < 59 then 0x0100000001000101 else 0x0100004001000101)
         else
          if x < 62 then (if x < 61 then 0x0100000000010101 else 0x0100004000010101) else (if x < 63 then 0x0100000001010101 else 0x0100004001010101)
     else
      if x < 96 then
       if x < 80 then
        if x < 72 then
         if x < 68 then
          if x < 66 then (if x < 65 then 0x0001000000000000 else 0x0001004000000000) else (if x < 67 then 0x0001000001000000 else 0x0001004001000000)
         else
          if x < 70 then (if x < 69 then 0x0001000000010000 else 0x0001004000010000) else (if x < 71 then 0x0001000001010000 else 0x0001004001010000)
        else
         if x < 76 then
          if x < 74 then (if x < 73 then 0x0001000000000100 else 0x0001004000000100) else (if x < 75 then 0x0001000001000100 else 0x0001004001000100)
         else
          if x < 78 then (if x < 77 then 0x0001000000010100 else 0x0001004000010100) else (if x < 79 then 0x0001000001010100 else 0x0001004001010100)
       else
        if x < 88 then
         if x < 84 then
          if x < 82 then (if x < 81 then 0x0001000000000001 else 0x0001004000000001) else (if x < 83 then 0x0001000001000001 else 0x0001004001000001)
         else
          if x < 86 then (if x < 85 then 0x0001000000010001 else 0x0001004000010001) else (if x < 87 then 0x0001000001010001 else 0x0001004001010001)
        else
         if x < 92 then
          if x < 90 then (if x < 89 then 0x0001000000000101 else 0x0001004000000101) else (if x < 91 then 0x0001000001000101 else 0x0001004001000101)
         else
          if x < 94 then (if x < 93 then 0x0001000000010101 else 0x0001004000010101) else (if x < 95 then 0x0001000001010101 else 0x0001004001010101)
      else
       if x < 112 then
        if x < 104 then
         if x < 100 then
          if x < 98 then (if x < 97 then 0x0101000000000000 else 0x0101004000000000) else (if x < 99 then 0x0101000001000000 else 0x0101004001000000)
         else
          if x < 102 then (if x < 101 then 0x0101000000010000 else 0x0101004000010000) else (if x < 103 then 0x0101000001010000 else 0x0101004001010000)
        else
         if x < 108 then
          if x < 106 then (if x < 105 then 0x0101000000000100 else 0x0101004000000100) else (if x < 107 then 0x0101000001000100 else 0x0101004001000100)
         else
          if x < 110 then (if x < 109 then 0x0101000000010100 else 0x0101004000010100) else (if x < 111 then 0x0101000001010100 else 0x0101004001010100)
       else
        if x < 120 then
         if x < 116 then
          if x < 114 then (if x < 113 then 0x0101000000000001 else 0x0101004000000001) else (if x < 115 then 0x0101000001000001 else 0x0101004001000001)
         else
          if x < 118 then (if x < 117 then 0x0101000000010001 else 0x0101004000010001) else (if x < 119 then 0x0101000001010001 else 0x0101004001010001)
        else
         if x < 124 then
          if x < 122 then (if x < 121 then 0x0101000000000101 else 0x0101004000000101) else (if x < 123 then 0x0101000001000101 else 0x0101004001000101)
         else
          if x < 126 then (if x < 125 then 0x0101000000010101 else 0x0101004000010101) else (if x < 127 then 0x0101000001010101 else 0x0101004001010101)
    else
     if x < 192 then
      if x < 160 then
       if x < 144 then
        if x < 136 then
         if x < 132 then
          if x < 130 then (if x < 129 then 0x0000010000000000 else 0x0000014000000000) else (if x < 131 then 0x0000010001000000 else 0x0000014001000000)
         else
          if x < 134 then (if x < 133 then 0x0000010000010000 else 0x0000014000010000) else (if x < 135 then 0x0000010001010000 else 0x0000014001010000)
        else
         if x < 140 then
          if x < 138 then (if x < 137 then 0x0000010000000100 else 0x0000014000000100) else (if x < 139 then 0x0000010001000100 else 0x0000014001000100)
         else
          if x < 142 then (if x < 141 then 0x0000010000010100 else 0x0000014000010100) else (if x < 143 then 0x0000010001010100 else 0x0000014001010100)
       else
        if x < 152 then
         if x < 148 then
          if x < 146 then (if x < 145 then 0x0000010000000001 else 0x0000014000000001) else (if x < 147 then 0x0000010001000001 else 0x0000014001000001)
         else
          if x < 150 then (if x < 149 then 0x0000010000010001 else 0x0000014000010001) else (if x < 151 then 0x0000010001010001 else 0x0000014001010001)
        else
         if x < 156 then
          if x < 154 then (if x < 153 then 0x0000010000000101 else 0x0000014000000101) else (if x < 155 then 0x0000010001000101 else 0x0000014001000101)
         else
          if x < 158 then (if x < 157 then 0x0000010000010101 else 0x0000014000010101) else (if x < 159 then 0x0000010001010101 else 0x0000014001010101)
      else
       if x < 176 then
        if x < 168 then
         if x < 164 then
          if x < 162 then (if x < 161 then 0x0100010000000000 else 0x0100014000000000) else (if x < 163 then 0x0100010001000000 else 0x0100014001000000)
         else
          if x < 166 then (if x < 165 then 0x0100010000010000 else 0x0100014000010000) else (if x < 167 then 0x0100010001010000 else 0x0100014001010000)
        else
         if x < 172 then
          if x < 170 then (if x < 169 then 0x0100010000000100 else 0x0100014000000100) else (if x < 171 then 0x0100010001000100 else 0x0100014001000100)
         else
          if x < 174 then (if x < 173 then 0x0100010000010100 else 0x0100014000010100) else (if x < 175 then 0x0100010001010100 else 0x0100014001010100)
       else
        if x < 184 then
         if x < 180 then
          if x < 178 then (if x < 177 then 0x0100010000000001 else 0x0100014000000001) else (if x < 179 then 0x0100010001000001 else 0x0100014001000001)
         else
          if x < 182 then (if x < 181 then 0x0100010000010001 else 0x0100014000010001) else (if x < 183 then 0x0100010001010001 else 0x0100014001010001)
        else
         if x < 188 then
          if x < 186 then (if x < 185 then 0x0100010000000101 else 0x0100014000000101) else (if x < 187 then 0x0100010001000101 else 0x0100014001000101)
         else
          if x < 190 then (if x < 189 then 0x0100010000010101 else 0x0100014000010101) else (if x < 191 then 0x0100010001010101 else 0x0100014001010101)
     else
      if x < 224 then
       if x < 208 then
        if x < 200 then
         if x < 196 then
          if x < 194 then (if x < 193 then 0x0001010000000000 else 0x0001014000000000) else (if x < 195 then 0x0001010001000000 else 0x0001014001000000)
         else
          if x < 198 then (if x < 197 then 0x0001010000010000 else 0x0001014000010000) else (if x < 199 then 0x0001010001010000 else 0x0001014001010000)
        else
         if x < 204 then
          if x < 202 then (if x < 201 then 0x0001010000000100 else 0x0001014000000100) else (if x < 203 then 0x0001010001000100 else 0x0001014001000100)
         else
          if x < 206 then (if x < 205 then 0x0001010000010100 else 0x0001014000010100) else (if x < 207 then 0x0001010001010100 else 0x0001014001010100)
       else
        if x < 216 then
         if x < 212 then
          if x < 210 then (if x < 209 then 0x0001010000000001 else 0x0001014000000001) else (if x < 211 then 0x0001010001000001 else 0x0001014001000001)
         else
          if x < 214 then (if x < 213 then 0x0001010000010001 else 0x0001014000010001) else (if x < 215 then 0x0001010001010001 else 0x0001014001010001)
        else
         if x < 220 then
          if x < 218 then (if x < 217 then 0x0001010000000101 else 0x0001014000000101) else (if x < 219 then 0x0001010001000101 else 0x0001014001000101)
         else
          if x < 222 then (if x < 221 then 0x0001010000010101 else 0x0001014000010101) else (if x < 223 then 0x0001010001010101 else 0x0001014001010101)
      else
       if x < 240 then
        if x < 232 then
         if x < 228 then
          if x < 226 then (if x < 225 then 0x0101010000000000 else 0x0101014000000000) else (if x < 227 then 0x0101010001000000 else 0x0101014001000000)
         else
          if x < 230 then (if x < 229 then 0x0101010000010000 else 0x0101014000010000) else (if x < 231 then 0x0101010001010000 else 0x0101014001010000)
        else
         if x < 236 then
          if x < 234 then (if x < 233 then 0x0101010000000100 else 0x0101014000000100) else (if x < 235 then 0x0101010001000100 else 0x0101014001000100)
         else
          if x < 238 then (if x < 237 then 0x0101010000010100 else 0x0101014000010100) else (if x < 239 then 0x0101010001010100 else 0x0101014001010100)
       else
        if x < 248 then
         if x < 244 then
          if x < 242 then (if x < 241 then 0x0101010000000001 else 0x0101014000000001) else (if x < 243 then 0x0101010001000001 else 0x0101014001000001)
         else
          if x < 246 then (if x < 245 then 0x0101010000010001 else 0x0101014000010001) else (if x < 247 then 0x0101010001010001 else 0x0101014001010001)
        else
         if x < 252 then
          if x < 250 then (if x < 249 then 0x0101010000000101 else 0x0101014000000101) else (if x < 251 then 0x0101010001000101 else 0x0101014001000101)
         else
          if x < 254 then (if x < 253 then 0x0101010000010101 else 0x0101014000010101) else (if x < 255 then 0x0101010001010101 else 0x0101014001010101)
  }

  function Fp5(x: bv8): bv64 {
    if x < 128 then
     if x < 64 then
      if x < 32 then
       if x < 16 then
        if x < 8 then
         if x < 4 then
          if x < 2 then (if x < 1 then 0x0000000000000000 else 0x0000000100000000) else (if x < 3 then 0x0000000004000000 else 0x0000000104000000)
         else
          if x < 6 then (if x < 5 then 0x0000000000040000 else 0x0000000100040000) else (if x < 7 then 0x0000000004040000 else 0x0000000104040000)
        else
         if x < 12 then
          if x < 10 then (if x < 9 then 0x0000000000000400 else 0x0000000100000400) else (if x < 11 then 0x0000000004000400 else 0x0000000104000400)
         else
          if x < 14 then (if x < 13 then 0x0000000000040400 else 0x0000000100040400) else (if x < 15 then 0x0000000004040400 else 0x0000000104040400)
       else
        if x < 24 then
         if x < 20 then
          if x < 18 then (if x < 17 then 0x0000000000000004 else 0x0000000100000004) else (if x < 19 then 0x0000000004000004 else 0x0000000104000004)
         else
          if x < 22 then (if x < 21 then 0x0000000000040004 else 0x0000000100040004) else (if x < 23 then 0x0000000004040004 else 0x0000000104040004)
        else
         if x < 28 then
          if x < 26 then (if x < 25 then 0x0000000000000404 else 0x0000000100000404) else (if x < 27 then 0x0000000004000404 else 0x0000000104000404)
         else
          if x < 30 then (if x < 29 then 0x0000000000040404 else 0x0000000100040404) else (if x < 31 then 0x0000000004040404 else 0x0000000104040404)
      else
       if x < 48 then
        if x < 40 then
         if x < 36 then
          if x < 34 then (if x < 33 then 0x0400000000000000 else 0x0400000100000000) else (if x < 35 then 0x0400000004000000 else 0x0400000104000000)
         else
          if x < 38 then (if x < 37 then 0x0400000000040000 else 0x0400000100040000) else (if x < 39 then 0x0400000004040000 else 0x0400000104040000)
        else
         if x < 44 then
          if x < 42 then (if x < 41 then 0x0400000000000400 else 0x0400000100000400) else (if x < 43 then 0x0400000004000400 else 0x0400000104000400)
         else
          if x < 46 then (if x < 45 then 0x0400000000040400 else 0x0400000100040400) else (if x < 47 then 0x0400000004040400 else 0x0400000104040400)
       else
        if x < 56 then
         if x < 52 then
          if x < 50 then (if x < 49 then 0x0400000000000004 else 0x0400000100000004) else (if x < 51 then 0x0400000004000004 else 0x0400000104000004)
         else
          if x < 54 then (if x < 53 then 0x0400000000040004 else 0x0400000100040004) else (if x < 55 then 0x0400000004040004 else 0x0400000104040004)
        else
         if x < 60 then
          if x < 58 then (if x < 57 then 0x0400000000000404 else 0x0400000100000404) else (if x < 59 then 0x0400000004000404 else 0x0400000104000404)
         else
          if x < 62 then (if x < 61 then 0x0400000000040404 else 0x0400000100040404) else (if x < 63 then 0x0400000004040404 else 0x0400000104040404)
     else
      if x < 96 then
       if x < 80 then
        if x < 72 then
         if x < 68 then
          if x < 66 then (if x < 65 then 0x0004000000000000 else 0x0004000100000000) else (if x < 67 then 0x0004000004000000 else 0x0004000104000000)
         else
          if x < 70 then (if x < 69 then 0x0004000000040000 else 0x0004000100040000) else (if x < 71 then 0x0004000004040000 else 0x0004000104040000)
        else
         if x < 76 then
          if x < 74 then (if x < 73 then 0x0004000000000400 else 0x0004000100000400) else (if x < 75 then 0x0004000004000400 else 0x0004000104000400)
         else
          if x < 78 then (if x < 77 then 0x0004000000040400 else 0x0004000100040400) else (if x < 79 then 0x0004000004040400 else 0x0004000104040400)
       else
        if x < 88 then
         if x < 84 then
          if x < 82 then (if x < 81 then 0x0004000000000004 else 0x0004000100000004) else (if x < 83 then 0x0004000004000004 else 0x0004000104000004)
         else
          if x < 86 then (if x < 85 then 0x0004000000040004 else 0x0004000100040004) else (if x < 87 then 0x0004000004040004 else 0x0004000104040004)
        else
         if x < 92 then
          if x < 90 then (if x < 89 then 0x0004000000000404 else 0x0004000100000404) else (if x < 91 then 0x0004000004000404 else 0x0004000104000404)
         else
          if x < 94 then (if x < 93 then 0x0004000000040404 else 0x0004000100040404) else (if x < 95 then 0x0004000004040404 else 0x0004000104040404)
      else
       if x < 112 then
        if x < 104 then
         if x < 100 then
          if x < 98 then (if x < 97 then 0x0404000000000000 else 0x0404000100000000) else (if x < 99 then 0x0404000004000000 else 0x0404000104000000)
         else
          if x < 102 then (if x < 101 then 0x0404000000040000 else 0x0404000100040000) else (if x < 103 then 0x0404000004040000 else 0x0404000104040000)
        else
         if x < 108 then
          if x < 106 then (if x < 105 then 0x0404000000000400 else 0x0404000100000400) else (if x < 107 then 0x0404000004000400 else 0x0404000104000400)
         else
          if x < 110 then (if x < 109 then 0x0404000000040400 else 0x0404000100040400) else (if x < 111 then 0x0404000004040400 else 0x0404000104040400)
       else
        if x < 120 then
         if x < 116 then
          if x < 114 then (if x < 113 then 0x0404000000000004 else 0x0404000100000004) else (if x < 115 then 0x0404000004000004 else 0x0404000104000004)
         else
          if x < 118 then (if x < 117 then 0x0404000000040004 else 0x0404000100040004) else (if x < 119 then 0x0404000004040004 else 0x0404000104040004)
        else
         if x < 124 then
          if x < 122 then (if x < 121 then 0x0404000000000404 else 0x0404000100000404) else (if x < 123 then 0x0404000004000404 else 0x0404000104000404)
         else
          if x < 126 then (if x < 125 then 0x0404000000040404 else 0x0404000100040404) else (if x < 127 then 0x0404000004040404 else 0x0404000104040404)
    else
     if x < 192 then
      if x < 160 then
       if x < 144 then
        if x < 136 then
         if x < 132 then
          if x < 130 then (if x < 129 then 0x0000040000000000 else 0x0000040100000000) else (if x < 131 then 0x0000040004000000 else 0x0000040104000000)
         else
          if x < 134 then (if x < 133 then 0x0000040000040000 else 0x0000040100040000) else (if x < 135 then 0x0000040004040000 else 0x0000040104040000)
        else
         if x < 140 then
          if x < 138 then (if x < 137 then 0x0000040000000400 else 0x0000040100000400) else (if x < 139 then 0x0000040004000400 else 0x0000040104000400)
         else
          if x < 142 then (if x < 141 then 0x0000040000040400 else 0x0000040100040400) else (if x < 143 then 0x0000040004040400 else 0x0000040104040400)
       else
        if x < 152 then
         if x < 148 then
          if x < 146 then (if x < 145 then 0x0000040000000004 else 0x0000040100000004) else (if x < 147 then 0x0000040004000004 else 0x0000040104000004)
         else
          if x < 150 then (if x < 149 then 0x0000040000040004 else 0x0000040100040004) else (if x < 151 then 0x0000040004040004 else 0x0000040104040004)
        else
         if x < 156 then
          if x < 154 then (if x < 153 then 0x0000040000000404 else 0x0000040100000404) else (if x < 155 then 0x0000040004000404 else 0x0000040104000404)
         else
          if x < 158 then (if x < 157 then 0x0000040000040404 else 0x0000040100040404) else (if x < 159 then 0x0000040004040404 else 0x0000040104040404)
      else
       if x < 176 then
        if x < 168 then
         if x < 164 then
          if x < 162 then (if x < 161 then 0x0400040000000000 else 0x0400040100000000) else (if x < 163 then 0x0400040004000000 else 0x0400040104000000)
         else
          if x < 166 then (if x < 165 then 0x0400040000040000 else 0x0400040100040000) else (if x < 167 then 0x0400040004040000 else 0x0400040104040000)
        else
         if x < 172 then
          if x < 170 then (if x < 169 then 0x0400040000000400 else 0x0400040100000400) else (if x < 171 then 0x0400040004000400 else 0x0400040104000400)
         else
          if x < 174 then (if x < 173 then 0x0400040000040400 else 0x0400040100040400) else (if x < 175 then 0x0400040004040400 else 0x0400040104040400)
       else
        if x < 184 then
         if x < 180 then
          if x < 178 then (if x < 177 then 0x0400040000000004 else 0x0400040100000004) else (if x < 179 then 0x0400040004000004 else 0x0400040104000004)
         else
          if x < 182 then (if x < 181 then 0x0400040000040004 else 0x0400040100040004) else (if x < 183 then 0x0400040004040004 else 0x0400040104040004)
        else
         if x < 188 then
          if x < 186 then (if x < 185 then 0x0400040000000404 else 0x0400040100000404) else (if x < 187 then 0x0400040004000404 else 0x0400040104000404)
         else
          if x < 190 then (if x < 189 then 0x0400040000040404 else 0x0400040100040404) else (if x < 191 then 0x0400040004040404 else 0x0400040104040404)
     else
      if x < 224 then
       if x < 208 then
        if x < 200 then
         if x < 196 then
          if x < 194 then (if x < 193 then 0x0004040000000000 else 0x0004040100000000) else (if x < 195 then 0x0004040004000000 else 0x0004040104000000)
         else
          if x < 198 then (if x < 197 then 0x0004040000040000 else 0x0004040100040000) else (if x < 199 then 0x0004040004040000 else 0x0004040104040000)
        else
         if x < 204 then
          if x < 202 then (if x < 201 then 0x0004040000000400 else 0x0004040100000400) else (if x < 203 then 0x0004040004000400 else 0x0004040104000400)
         else
          if x < 206 then (if x < 205 then 0x0004040000040400 else 0x0004040100040400) else (if x < 207 then 0x0004040004040400 else 0x0004040104040400)
       else
        if x < 216 then
         if x < 212 then
          if x < 210 then (if x < 209 then 0x0004040000000004 else 0x0004040100000004) else (if x < 211 then 0x0004040004000004 else 0x0004040104000004)
         else
          if x < 214 then (if x < 213 then 0x0004040000040004 else 0x0004040100040004) else (if x < 215 then 0x0004040004040004 else 0x0004040104040004)
        else
         if x < 220 then
          if x < 218 then (if x < 217 then 0x0004040000000404 else 0x0004040100000404) else (if x < 219 then 0x0004040004000404 else 0x0004040104000404)
         else
          if x < 222 then (if x < 221 then 0x0004040000040404 else 0x0004040100040404) else (if x < 223 then 0x0004040004040404 else 0x0004040104040404)
      else
       if x < 240 then
        if x < 232 then
         if x < 228 then
          if x < 226 then (if x < 225 then 0x0404040000000000 else 0x0404040100000000) else (if x < 227 then 0x0404040004000000 else 0x0404040104000000)
         else
          if x < 230 then (if x < 229 then 0x0404040000040000 else 0x0404040100040000) else (if x < 231 then 0x0404040004040000 else 0x0404040104040000)
        else
         if x < 236 then
          if x < 234 then (if x < 233 then 0x0404040000000400 else 0x0404040100000400) else (if x < 235 then 0x0404040004000400 else 0x0404040104000400)
         else
          if x < 238 then (if x < 237 then 0x0404040000040400 else 0x0404040100040400) else (if x < 239 then 0x0404040004040400 else 0x0404040104040400)
       else
        if x < 248 then
         if x < 244 then
          if x < 242 then (if x < 241 then 0x0404040000000004 else 0x0404040100000004) else (if x < 243 then 0x0404040004000004 else 0x0404040104000004)
         else
          if x < 246 then (if x < 245 then 0x0404040000040004 else 0x0404040100040004) else (if x < 247 then 0x0404040004040004 else 0x0404040104040004)
        else
         if x < 252 then
          if x < 250 then (if x < 249 then 0x0404040000000404 else 0x0404040100000404) else (if x < 251 then 0x0404040004000404 else 0x0404040104000404)
         else
          if x < 254 then (if x < 253 then 0x0404040000040404 else 0x0404040100040404) else (if x < 255 then 0x0404040004040404 else 0x0404040104040404)
  }

  function Fp6(x: bv8): bv64 {
    if x < 128 then
     if x < 64 then
      if x < 32 then
       if x < 16 then
        if x < 8 then
         if x < 4 then
          if x < 2 then (if x < 1 then 0x0000000000000000 else 0x0000000400000000) else (if x < 3 then 0x0000000010000000 else 0x0000000410000000)
         else
          if x < 6 then (if x < 5 then 0x0000000000100000 else 0x0000000400100000) else (if x < 7 then 0x0000000010100000 else 0x0000000410100000)
        else
         if x < 12 then
          if x < 10 then (if x < 9 then 0x0000000000001000 else 0x0000000400001000) else (if x < 11 then 0x0000000010001000 else 0x0000000410001000)
         else
          if x < 14 then (if x < 13 then 0x0000000000101000 else 0x0000000400101000) else (if x < 15 then 0x0000000010101000 else 0x0000000410101000)
       else
        if x < 24 then
         if x < 20 then
          if x < 18 then (if x < 17 then 0x0000000000000010 else 0x0000000400000010) else (if x < 19 then 0x0000000010000010 else 0x0000000410000010)
         else
          if x < 22 then (if x < 21 then 0x0000000000100010 else 0x0000000400100010) else (if x < 23 then 0x0000000010100010 else 0x0000000410100010)
        else
         if x < 28 then
          if x < 26 then (if x < 25 then 0x0000000000001010 else 0x0000000400001010) else (if x < 27 then 0x0000000010001010 else 0x0000000410001010)
         else
          if x < 30 then (if x < 29 then 0x0000000000101010 else 0x0000000400101010) else (if x < 31 then 0x0000000010101010 else 0x0000000410101010)
      else
       if x < 48 then
        if x < 40 then
         if x < 36 then
          if x < 34 then (if x < 33 then 0x1000000000000000 else 0x1000000400000000) else (if x < 35 then 0x1000000010000000 else 0x1000000410000000)
         else
          if x < 38 then (if x < 37 then 0x1000000000100000 else 0x1000000400100000) else (if x < 39 then 0x1000000010100000 else 0x1000000410100000)
        else
         if x < 44 then
          if x < 42 then (if x < 41 then 0x1000000000001000 else 0x1000000400001000) else (if x < 43 then 0x1000000010001000 else 0x1000000410001000)
         else
          if x < 46 then (if x < 45 then 0x1000000000101000 else 0x1000000400101000) else (if x < 47 then 0x1000000010101000 else 0x1000000410101000)
       else
        if x < 56 then
         if x < 52 then
          if x < 50 then (if x < 49 then 0x1000000000000010 else 0x1000000400000010) else (if x < 51 then 0x1000000010000010 else 0x1000000410000010)
         else
          if x < 54 then (if x < 53 then 0x1000000000100010 else 0x1000000400100010) else (if x < 55 then 0x1000000010100010 else 0x1000000410100010)
        else
         if x < 60 then
          if x < 58 then (if x < 57 then 0x1000000000001010 else 0x1000000400001010) else (if x < 59 then 0x1000000010001010 else 0x1000000410001010)
         else
          if x < 62 then (if x < 61 then 0x1000000000101010 else 0x1000000400101010) else (if x < 63 then 0x1000000010101010 else 0x1000000410101010)
     else
      if x < 96 then
       if x < 80 then
        if x < 72 then
         if x < 68 then
          if x < 66 then (if x < 65 then 0x0010000000000000 else 0x0010000400000000) else (if x < 67 then 0x0010000010000000 else 0x0010000410000000)
         else
          if x < 70 then (if x < 69 then 0x0010000000100000 else 0x0010000400100000) else (if x < 71 then 0x0010000010100000 else 0x0010000410100000)
        else
         if x < 76 then
          if x < 74 then (if x < 73 then 0x0010000000001000 else 0x0010000400001000) else (if x < 75 then 0x0010000010001000 else 0x0010000410001000)
         else
          if x < 78 then (if x < 77 then 0x0010000000101000 else 0x0010000400101000) else (if x < 79 then 0x0010000010101000 else 0x0010000410101000)
       else
        if x < 88 then
         if x < 84 then
          if x < 82 then (if x < 81 then 0x0010000000000010 else 0x0010000400000010) else (if x < 83 then 0x0010000010000010 else 0x0010000410000010)
         else
          if x < 86 then (if x < 85 then 0x0010000000100010 else 0x0010000400100010) else (if x < 87 then 0x0010000010100010 else 0x0010000410100010)
        else
         if x < 92 then
          if x < 90 then (if x < 89 then 0x0010000000001010 else 0x0010000400001010) else (if x < 91 then 0x0010000010001010 else 0x0010000410001010)
         else
          if x < 94 then (if x < 93 then 0x0010000000101010 else 0x0010000400101010) else (if x < 95 then 0x0010000010101010 else 0x0010000410101010)
      else
       if x < 112 then
        if x < 104 then
         if x < 100 then
          if x < 98 then (if x < 97 then 0x1010000000000000 else 0x1010000400000000) else (if x < 99 then 0x1010000010000000 else 0x1010000410000000)
         else
          if x < 102 then (if x < 101 then 0x1010000000100000 else 0x1010000400100000) else (if x < 103 then 0x1010000010100000 else 0x1010000410100000)
        else
         if x < 108 then
          if x < 106 then (if x < 105 then 0x1010000000001000 else 0x1010000400001000) else (if x < 107 then 0x1010000010001000 else 0x1010000410001000)
         else
          if x < 110 then (if x < 109 then 0x1010000000101000 else 0x1010000400101000) else (if x < 111 then 0x1010000010101000 else 0x1010000410101000)
       else
        if x < 120 then
         if x < 116 then
          if x < 114 then (if x < 113 then 0x1010000000000010 else 0x1010000400000010) else (if x < 115 then 0x1010000010000010 else 0x1010000410000010)
         else
          if x < 118 then (if x < 117 then 0x1010000000100010 else 0x1010000400100010) else (if x < 119 then 0x1010000010100010 else 0x1010000410100010)
        else
         if x < 124 then
          if x < 122 then (if x < 121 then 0x1010000000001010 else 0x1010000400001010) else (if x < 123 then 0x1010000010001010 else 0x1010000410001010)
         else
          if x < 126 then (if x < 125 then 0x1010000000101010 else 0x1010000400101010) else (if x < 127 then 0x1010000010101010 else 0x1010000410101010)
    else
     if x < 192 then
      if x < 160 then
       if x < 144 then
        if x < 136 then
         if x < 132 then
          if x < 130 then (if x < 129 then 0x0000100000000000 else 0x0000100400000000) else (if x < 131 then 0x0000100010000000 else 0x0000100410000000)
         else
          if x < 134 then (if x < 133 then 0x0000100000100000 else 0x0000100400100000) else (if x < 135 then 0x0000100010100000 else 0x0000100410100000)
        else
         if x < 140 then
          if x < 138 then (if x < 137 then 0x0000100000001000 else 0x0000100400001000) else (if x < 139 then 0x0000100010001000 else 0x0000100410001000)
         else
          if x < 142 then (if x < 141 then 0x0000100000101000 else 0x0000100400101000) else (if x < 143 then 0x0000100010101000 else 0x0000100410101000)
       else
        if x < 152 then
         if x < 148 then
          if x < 146 then (if x < 145 then 0x0000100000000010 else 0x0000100400000010) else (if x < 147 then 0x0000100010000010 else 0x0000100410000010)
         else
          if x < 150 then (if x < 149 then 0x0000100000100010 else 0x0000100400100010) else (if x < 151 then 0x0000100010100010 else 0x0000100410100010)
        else
         if x < 156 then
          if x < 154 then (if x < 153 then 0x0000100000001010 else 0x0000100400001010) else (if x < 155 then 0x0000100010001010 else 0x0000100410001010)
         else
          if x < 158 then (if x < 157 then 0x0000100000101010 else 0x0000100400101010) else (if x < 159 then 0x0000100010101010 else 0x0000100410101010)
      else
       if x < 176 then
        if x < 168 then
         if x < 164 then
          if x < 162 then (if x < 161 then 0x1000100000000000 else 0x1000100400000000) else (if x < 163 then 0x1000100010000000 else 0x1000100410000000)
         else
          if x < 166 then (if x < 165 then 0x1000100000100000 else 0x1000100400100000) else (if x < 167 then 0x1000100010100000 else 0x1000100410100000)
        else
         if x < 172 then
          if x < 170 then (if x < 169 then 0x1000100000001000 else 0x1000100400001000) else (if x < 171 then 0x1000100010001000 else 0x1000100410001000)
         else
          if x < 174 then (if x < 173 then 0x1000100000101000 else 0x1000100400101000) else (if x < 175 then 0x1000100010101000 else 0x1000100410101000)
       else
        if x < 184 then
         if x < 180 then
          if x < 178 then (if x < 177 then 0x1000100000000010 else 0x1000100400000010) else (if x < 179 then 0x1000100010000010 else 0x1000100410000010)
         else
          if x < 182 then (if x < 181 then 0x1000100000100010 else 0x1000100400100010) else (if x < 183 then 0x1000100010100010 else 0x1000100410100010)
        else
         if x < 188 then
          if x < 186 then (if x < 185 then 0x1000100000001010 else 0x1000100400001010) else (if x < 187 then 0x1000100010001010 else 0x1000100410001010)
         else
          if x < 190 then (if x < 189 then 0x1000100000101010 else 0x1000100400101010) else (if x < 191 then 0x1000100010101010 else 0x1000100410101010)
     else
      if x < 224 then
       if x < 208 then
        if x < 200 then
         if x < 196 then
          if x < 194 then (if x < 193 then 0x0010100000000000 else 0x0010100400000000) else (if x < 195 then 0x0010100010000000 else 0x0010100410000000)
         else
          if x < 198 then (if x < 197 then 0x0010100000100000 else 0x0010100400100000) else (if x < 199 then 0x0010100010100000 else 0x0010100410100000)
        else
         if x < 204 then
          if x < 202 then (if x < 201 then 0x0010100000001000 else 0x0010100400001000) else (if x < 203 then 0x0010100010001000 else 0x0010100410001000)
         else
          if x < 206 then (if x < 205 then 0x0010100000101000 else 0x0010100400101000) else (if x < 207 then 0x0010100010101000 else 0x0010100410101000)
       else
        if x < 216 then
         if x < 212 then
          if x < 210 then (if x < 209 then 0x0010100000000010 else 0x0010100400000010) else (if x < 211 then 0x0010100010000010 else 0x0010100410000010)
         else
          if x < 214 then (if x < 213 then 0x0010100000100010 else 0x0010100400100010) else (if x < 215 then 0x0010100010100010 else 0x0010100410100010)
        else
         if x < 220 then
          if x < 218 then (if x < 217 then 0x0010100000001010 else 0x0010100400001010) else (if x < 219 then 0x0010100010001010 else 0x0010100410001010)
         else
          if x < 222 then (if x < 221 then 0x0010100000101010 else 0x0010100400101010) else (if x < 223 then 0x0010100010101010 else 0x0010100410101010)
      else
       if x < 240 then
        if x < 232 then
         if x < 228 then
          if x < 226 then (if x < 225 then 0x1010100000000000 else 0x1010100400000000) else (if x < 227 then 0x1010100010000000 else 0x1010100410000000)
         else
          if x < 230 then (if x < 229 then 0x1010100000100000 else 0x1010100400100000) else (if x < 231 then 0x1010100010100000 else 0x1010100410100000)
        else
         if x < 236 then
          if x < 234 then (if x < 233 then 0x1010100000001000 else 0x1010100400001000) else (if x < 235 then 0x1010100010001000 else 0x1010100410001000)
         else
          if x < 238 then (if x < 237 then 0x1010100000101000 else 0x1010100400101000) else (if x < 239 then 0x1010100010101000 else 0x1010100410101000)
       else
        if x < 248 then
         if x < 244 then
          if x < 242 then (if x < 241 then 0x1010100000000010 else 0x1010100400000010) else (if x < 243 then 0x1010100010000010 else 0x1010100410000010)
         else
          if x < 246 then (if x < 245 then 0x1010100000100010 else 0x1010100400100010) else (if x < 247 then 0x1010100010100010 else 0x1010100410100010)
        else
         if x < 252 then
          if x < 250 then (if x < 249 then 0x1010100000001010 else 0x1010100400001010) else (if x < 251 then 0x1010100010001010 else 0x1010100410001010)
         else
          if x < 254 then (if x < 253 then 0x1010100000101010 else 0x1010100400101010) else (if x < 255 then 0x1010100010101010 else 0x1010100410101010)
  }

  function Fp7(x: bv8): bv64 {
    if x < 128 then
     if x < 64 then
      if x < 32 then
       if x < 16 then
        if x < 8 then
         if x < 4 then
          if x < 2 then (if x < 1 then 0x0000000000000000 else 0x0000001000000000) else (if x < 3 then 0x0000000040000000 else 0x0000001040000000)
         else
          if x < 6 then (if x < 5 then 0x0000000000400000 else 0x0000001000400000) else (if x < 7 then 0x0000000040400000 else 0x0000001040400000)
        else
         if x < 12 then
          if x < 10 then (if x < 9 then 0x0000000000004000 else 0x0000001000004000) else (if x < 11 then 0x0000000040004000 else 0x0000001040004000)
         else
          if x < 14 then (if x < 13 then 0x0000000000404000 else 0x0000001000404000) else (if x < 15 then 0x0000000040404000 else 0x0000001040404000)
       else
        if x < 24 then
         if x < 20 then
          if x < 18 then (if x < 17 then 0x0000000000000040 else 0x0000001000000040) else (if x < 19 then 0x0000000040000040 else 0x0000001040000040)
         else
          if x < 22 then (if x < 21 then 0x0000000000400040 else 0x0000001000400040) else (if x < 23 then 0x0000000040400040 else 0x0000001040400040)
        else
         if x < 28 then
          if x < 26 then (if x < 25 then 0x0000000000004040 else 0x0000001000004040) else (if x < 27 then 0x0000000040004040 else 0x0000001040004040)
         else
          if x < 30 then (if x < 29 then 0x0000000000404040 else 0x0000001000404040) else (if x < 31 then 0x0000000040404040 else 0x0000001040404040)
      else
       if x < 48 then
        if x < 40 then
         if x < 36 then
          if x < 34 then (if x < 33 then 0x4000000000000000 else 0x4000001000000000) else (if x < 35 then 0x4000000040000000 else 0x4000001040000000)
         else
          if x < 38 then (if x < 37 then 0x4000000000400000 else 0x4000001000400000) else (if x < 39 then 0x4000000040400000 else 0x4000001040400000)
        else
         if x < 44 then
          if x < 42 then (if x < 41 then 0x4000000000004000 else 0x4000001000004000) else (if x < 43 then 0x4000000040004000 else 0x4000001040004000)
         else
          if x < 46 then (if x < 45 then 0x4000000000404000 else 0x4000001000404000) else (if x < 47 then 0x4000000040404000 else 0x4000001040404000)
       else
        if x < 56 then
         if x < 52 then
          if x < 50 then (if x < 49 then 0x4000000000000040 else 0x4000001000000040) else (if x < 51 then 0x4000000040000040 else 0x4000001040000040)
         else
          if x < 54 then (if x < 53 then 0x4000000000400040 else 0x4000001000400040) else (if x < 55 then 0x4000000040400040 else 0x4000001040400040)
        else
         if x < 60 then
          if x < 58 then (if x < 57 then 0x4000000000004040 else 0x4000001000004040) else (if x < 59 then 0x4000000040004040 else 0x4000001040004040)
         else
          if x < 62 then (if x < 61 then 0x4000000000404040 else 0x4000001000404040) else (if x < 63 then 0x4000000040404040 else 0x4000001040404040)
     else
      if x < 96 then
       if x < 80 then
        if x < 72 then
         if x < 68 then
          if x < 66 then (if x < 65 then 0x0040000000000000 else 0x0040001000000000) else (if x < 67 then 0x0040000040000000 else 0x0040001040000000)
         else
          if x < 70 then (if x < 69 then 0x0040000000400000 else 0x0040001000400000) else (if x < 71 then 0x0040000040400000 else 0x0040001040400000)
        else
         if x < 76 then
          if x < 74 then (if x < 73 then 0x0040000000004000 else 0x0040001000004000) else (if x < 75 then 0x0040000040004000 else 0x0040001040004000)
         else
          if x < 78 then (if x < 77 then 0x0040000000404000 else 0x0040001000404000) else (if x < 79 then 0x0040000040404000 else 0x0040001040404000)
       else
        if x < 88 then
         if x < 84 then
          if x < 82 then (if x < 81 then 0x0040000000000040 else 0x0040001000000040) else (if x < 83 then 0x0040000040000040 else 0x0040001040000040)
         else
          if x < 86 then (if x < 85 then 0x0040000000400040 else 0x0040001000400040) else (if x < 87 then 0x0040000040400040 else 0x0040001040400040)
        else
         if x < 92 then
          if x < 90 then (if x < 89 then 0x0040000000004040 else 0x0040001000004040) else (if x < 91 then 0x0040000040004040 else 0x0040001040004040)
         else
          if x < 94 then (if x < 93 then 0x0040000000404040 else 0x0040001000404040) else (if x < 95 then 0x0040000040404040 else 0x0040001040404040)
      else
       if x < 112 then
        if x < 104 then
         if x < 100 then
          if x < 98 then (if x < 97 then 0x4040000000000000 else 0x4040001000000000) else (if x < 99 then 0x4040000040000000 else 0x4040001040000000)
         else
          if x < 102 then (if x < 101 then 0x4040000000400000 else 0x4040001000400000) else (if x < 103 then 0x4040000040400000 else 0x4040001040400000)
        else
         if x < 108 then
          if x < 106 then (if x < 105 then 0x4040000000004000 else 0x4040001000004000) else (if x < 107 then 0x4040000040004000 else 0x4040001040004000)
         else
          if x < 110 then (if x < 109 then 0x4040000000404000 else 0x4040001000404000) else (if x < 111 then 0x4040000040404000 else 0x4040001040404000)
       else
        if x < 120 then
         if x < 116 then
          if x < 114 then (if x < 113 then 0x4040000000000040 else 0x4040001000000040) else (if x < 115 then 0x4040000040000040 else 0x4040001040000040)
         else
          if x < 118 then (if x < 117 then 0x4040000000400040 else 0x4040001000400040) else (if x < 119 then 0x4040000040400040 else 0x4040001040400040)
        else
         if x < 124 then
          if x < 122 then (if x < 121 then 0x4040000000004040 else 0x4040001000004040) else (if x < 123 then 0x4040000040004040 else 0x4040001040004040)
         else
          if x < 126 then (if x < 125 then 0x4040000000404040 else 0x4040001000404040) else (if x < 127 then 0x4040000040404040 else 0x4040001040404040)
    else
     if x < 192 then
      if x < 160 then
       if x < 144 then
        if x < 136 then
         if x < 132 then
          if x < 130 then (if x < 129 then 0x0000400000000000 else 0x0000401000000000) else (if x < 131 then 0x0000400040000000 else 0x0000401040000000)
         else
          if x < 134 then (if x < 133 then 0x0000400000400000 else 0x0000401000400000) else (if x < 135 then 0x0000400040400000 else 0x0000401040400000)
        else
         if x < 140 then
          if x < 138 then (if x < 137 then 0x0000400000004000 else 0x0000401000004000) else (if x < 139 then 0x0000400040004000 else 0x0000401040004000)
         else
          if x < 142 then (if x < 141 then 0x0000400000404000 else 0x0000401000404000) else (if x < 143 then 0x0000400040404000 else 0x0000401040404000)
       else
        if x < 152 then
         if x < 148 then
          if x < 146 then (if x < 145 then 0x0000400000000040 else 0x0000401000000040) else (if x < 147 then 0x0000400040000040 else 0x0000401040000040)
         else
          if x < 150 then (if x < 149 then 0x0000400000400040 else 0x0000401000400040) else (if x < 151 then 0x0000400040400040 else 0x0000401040400040)
        else
         if x < 156 then
          if x < 154 then (if x < 153 then 0x0000400000004040 else 0x0000401000004040) else (if x < 155 then 0x0000400040004040 else 0x0000401040004040)
         else
          if x < 158 then (if x < 157 then 0x0000400000404040 else 0x0000401000404040) else (if x < 159 then 0x0000400040404040 else 0x0000401040404040)
      else
       if x < 176 then
        if x < 168 then
         if x < 164 then
          if x < 162 then (if x < 161 then 0x4000400000000000 else 0x4000401000000000) else (if x < 163 then 0x4000400040000000 else 0x4000401040000000)
         else
          if x < 166 then (if x < 165 then 0x4000400000400000 else 0x4000401000400000) else (if x < 167 then 0x4000400040400000 else 0x4000401040400000)
        else
         if x < 172 then
          if x < 170 then (if x < 169 then 0x4000400000004000 else 0x4000401000004000) else (if x < 171 then 0x4000400040004000 else 0x4000401040004000)
         else
          if x < 174 then (if x < 173 then 0x4000400000404000 else 0x4000401000404000) else (if x < 175 then 0x4000400040404000 else 0x4000401040404000)
       else
        if x < 184 then
         if x < 180 then
          if x < 178 then (if x < 177 then 0x4000400000000040 else 0x4000401000000040) else (if x < 179 then 0x4000400040000040 else 0x4000401040000040)
         else
          if x < 182 then (if x < 181 then 0x4000400000400040 else 0x4000401000400040) else (if x < 183 then 0x4000400040400040 else 0x4000401040400040)
        else
         if x < 188 then
          if x < 186 then (if x < 185 then 0x4000400000004040 else 0x4000401000004040) else (if x < 187 then 0x4000400040004040 else 0x4000401040004040)
         else
          if x < 190 then (if x < 189 then 0x4000400000404040 else 0x4000401000404040) else (if x < 191 then 0x4000400040404040 else 0x4000401040404040)
     else
      if x < 224 then
       if x < 208 then
        if x < 200 then
         if x < 196 then
          if x < 194 then (if x < 193 then 0x0040400000000000 else 0x0040401000000000) else (if x < 195 then 0x0040400040000000 else 0x0040401040000000)
         else
          if x < 198 then (if x < 197 then 0x0040400000400000 else 0x0040401000400000) else (if x < 199 then 0x0040400040400000 else 0x0040401040400000)
        else
         if x < 204 then
          if x < 202 then (if x < 201 then 0x0040400000004000 else 0x0040401000004000) else (if x < 203 then 0x0040400040004000 else 0x0040401040004000)
         else
          if x < 206 then (if x < 205 then 0x0040400000404000 else 0x0040401000404000) else (if x < 207 then 0x0040400040404000 else 0x0040401040404000)
       else
        if x < 216 then
         if x < 212 then
          if x < 210 then (if x < 209 then 0x0040400000000040 else 0x0040401000000040) else (if x < 211 then 0x0040400040000040 else 0x0040401040000040)
         else
          if x < 214 then (if x < 213 then 0x0040400000400040 else 0x0040401000400040) else (if x < 215 then 0x0040400040400040 else 0x0040401040400040)
        else
         if x < 220 then
          if x < 218 then (if x < 217 then 0x0040400000004040 else 0x0040401000004040) else (if x < 219 then 0x0040400040004040 else 0x0040401040004040)
         else
          if x < 222 then (if x < 221 then 0x0040400000404040 else 0x0040401000404040) else (if x < 223 then 0x0040400040404040 else 0x0040401040404040)
      else
       if x < 240 then
        if x < 232 then
         if x < 228 then
          if x < 226 then (if x < 225 then 0x4040400000000000 else 0x4040401000000000) else (if x < 227 then 0x4040400040000000 else 0x4040401040000000)
         else
          if x < 230 then (if x < 229 then 0x4040400000400000 else 0x4040401000400000) else (if x < 231 then 0x4040400040400000 else 0x4040401040400000)
        else
         if x < 236 then
          if x < 234 then (if x < 233 then 0x4040400000004000 else 0x4040401000004000) else (if x < 235 then 0x4040400040004000 else 0x4040401040004000)
         else
          if x < 238 then (if x < 237 then 0x4040400000404000 else 0x4040401000404000) else (if x < 239 then 0x4040400040404000 else 0x4040401040404000)
       else
        if x < 248 then
         if x < 244 then
          if x < 242 then (if x < 241 then 0x4040400000000040 else 0x4040401000000040) else (if x < 243 then 0x4040400040000040 else 0x4040401040000040)
         else
          if x < 246 then (if x < 245 then 0x4040400000400040 else 0x4040401000400040) else (if x < 247 then 0x4040400040400040 else 0x4040401040400040)
        else
         if x < 252 then
          if x < 250 then (if x < 249 then 0x4040400000004040 else 0x4040401000004040) else (if x < 251 then 0x4040400040004040 else 0x4040401040004040)
         else
          if x < 254 then (if x < 253 then 0x4040400000404040 else 0x4040401000404040) else (if x < 255 then 0x4040400040404040 else 0x4040401040404040)
  }
}
