/** The tables S7 and S9 of KASUMI (kasumi.c), and the tables that undo them. */
module KasumiTables {

  function S7(x: bv7): bv7 {
    if x < 64 then
     if x < 32 then
      if x < 16 then
       if x < 8 then
        if x < 4 then (if x < 2 then (if x < 1 then 54 else 50) else (if x < 3 then 62 else 56)) else (if x < 6 then (if x < 5 then 22 else 34) else (if x < 7 then 94 else 96))
       else
        if x < 12 then (if x < 10 then (if x < 9 then 38 else 6) else (if x < 11 then 63 else 93)) else (if x < 14 then (if x < 13 then 2 else 18) else (if x < 15 then 123 else 33))
      else
       if x < 24 then
        if x < 20 then (if x < 18 then (if x < 17 then 55 else 113) else (if x < 19 then 39 else 114)) else (if x < 22 then (if x < 21 then 21 else 67) else (if x < 23 then 65 else 12))
       else
        if x < 28 then (if x < 26 then (if x < 25 then 47 else 73) else (if x < 27 then 46 else 27)) else (if x < 30 then (if x < 29 then 25 else 111) else (if x < 31 then 124 else 81))
     else
      if x < 48 then
       if x < 40 then
        if x < 36 then (if x < 34 then (if x < 33 then 53 else 9) else (if x < 35 then 121 else 79)) else (if x < 38 then (if x < 37 then 52 else 60) else (if x < 39 then 58 else 48))
       else
        if x < 44 then (if x < 42 then (if x < 41 then 101 else 127) else (if x < 43 then 40 else 120)) else (if x < 46 then (if x < 45 then 104 else 70) else (if x < 47 then 71 else 43))
      else
       if x < 56 then
        if x < 52 then (if x < 50 then (if x < 49 then 20 else 122) else (if x < 51 then 72 else 61)) else (if x < 54 then (if x < 53 then 23 else 109) else (if x < 55 then 13 else 100))
       else
        if x < 60 then (if x < 58 then (if x < 57 then 77 else 1) else (if x < 59 then 16 else 7)) else (if x < 62 then (if x < 61 then 82 else 10) else (if x < 63 then 105 else 98))
    else
     if x < 96 then
      if x < 80 then
       if x < 72 then
        if x < 68 then (if x < 66 then (if x < 65 then 117 else 116) else (if x < 67 then 76 else 11)) else (if x < 70 then (if x < 69 then 89 else 106) else (if x < 71 then 0 else 125))
       else
        if x < 76 then (if x < 74 then (if x < 73 then 118 else 99) else (if x < 75 then 86 else 69)) else (if x < 78 then (if x < 77 then 30 else 57) else (if x < 79 then 126 else 87))
      else
       if x < 88 then
        if x < 84 then (if x < 82 then (if x < 81 then 112 else 51) else (if x < 83 then 17 else 5)) else (if x < 86 then (if x < 85 then 95 else 14) else (if x < 87 then 90 else 84))
       else
        if x < 92 then (if x < 90 then (if x < 89 then 91 else 8) else (if x < 91 then 35 else 103)) else (if x < 94 then (if x < 93 then 32 else 97) else (if x < 95 then 28 else 66))
     else
      if x < 112 then
       if x < 104 then
        if x < 100 then (if x < 98 then (if x < 97 then 102 else 31) else (if x < 99 then 26 else 45)) else (if x < 102 then (if x < 101 then 75 else 4) else (if x < 103 then 85 else 92))
       else
        if x < 108 then (if x < 106 then (if x < 105 then 37 else 74) else (if x < 107 then 80 else 49)) else (if x < 110 then (if x < 109 then 68 else 29) else (if x < 111 then 115 else 44))
      else
       if x < 120 then
        if x < 116 then (if x < 114 then (if x < 113 then 64 else 107) else (if x < 115 then 108 else 24)) else (if x < 118 then (if x < 117 then 110 else 83) else (if x < 119 then 36 else 78))
       else
        if x < 124 then (if x < 122 then (if x < 121 then 42 else 19) else (if x < 123 then 15 else 41)) else (if x < 126 then (if x < 125 then 88 else 119) else (if x < 127 then 59 else 3))
  }

  function S9(x: bv9): bv9 {
    if x < 256 then
     if x < 128 then
      if x < 64 then
       if x < 32 then
        if x < 16 then
         if x < 8 then
          if x < 4 then (if x < 2 then (if x < 1 then 167 else 239) else (if x < 3 then 161 else 379)) else (if x < 6 then (if x < 5 then 391 else 334) else (if x < 7 then 9 else 338))
         else
          if x < 12 then (if x < 10 then (if x < 9 then 38 else 226) else (if x < 11 then 48 else 358)) else (if x < 14 then (if x < 13 then 452 else 385) else (if x < 15 then 90 else 397))
        else
         if x < 24 then
          if x < 20 then (if x < 18 then (if x < 17 then 183 else 253) else (if x < 19 then 147 else 331)) else (if x < 22 then (if x < 21 then 415 else 340) else (if x < 23 then 51 else 362))
         else
          if x < 28 then (if x < 26 then (if x < 25 then 306 else 500) else (if x < 27 then 262 else 82)) else (if x < 30 then (if x < 29 then 216 else 159) else (if x < 31 then 356 else 177))
       else
        if x < 48 then
         if x < 40 then
          if x < 36 then (if x < 34 then (if x < 33 then 175 else 241) else (if x < 35 then 489 else 37)) else (if x < 38 then (if x < 37 then 206 else 17) else (if x < 39 then 0 else 333))
         else
          if x < 44 then (if x < 42 then (if x < 41 then 44 else 254) else (if x < 43 then 378 else 58)) else (if x < 46 then (if x < 45 then 143 else 220) else (if x < 47 then 81 else 400))
        else
         if x < 56 then
          if x < 52 then (if x < 50 then (if x < 49 then 95 else 3) else (if x < 51 then 315 else 245)) else (if x < 54 then (if x < 53 then 54 else 235) else (if x < 55 then 218 else 405))
         else
          if x < 60 then (if x < 58 then (if x < 57 then 472 else 264) else (if x < 59 then 172 else 494)) else (if x < 62 then (if x < 61 then 371 else 290) else (if x < 63 then 399 else 76))
      else
       if x < 96 then
        if x < 80 then
         if x < 72 then
          if x < 68 then (if x < 66 then (if x < 65 then 165 else 197) else (if x < 67 then 395 else 121)) else (if x < 70 then (if x < 69 then 257 else 480) else (if x < 71 then 423 else 212))
         else
          if x < 76 then (if x < 74 then (if x < 73 then 240 else 28) else (if x < 75 then 462 else 176)) else (if x < 78 then (if x < 77 then 406 else 507) else (if x < 79 then 288 else 223))
        else
         if x < 88 then
          if x < 84 then (if x < 82 then (if x < 81 then 501 else 407) else (if x < 83 then 249 else 265)) else (if x < 86 then (if x < 85 then 89 else 186) else (if x < 87 then 221 else 428))
         else
          if x < 92 then (if x < 90 then (if x < 89 then 164 else 74) else (if x < 91 then 440 else 196)) else (if x < 94 then (if x < 93 then 458 else 421) else (if x < 95 then 350 else 163))
       else
        if x < 112 then
         if x < 104 then
          if x < 100 then (if x < 98 then (if x < 97 then 232 else 158) else (if x < 99 then 134 else 354)) else (if x < 102 then (if x < 101 then 13 else 250) else (if x < 103 then 491 else 142))
         else
          if x < 108 then (if x < 106 then (if x < 105 then 191 else 69) else (if x < 107 then 193 else 425)) else (if x < 110 then (if x < 109 then 152 else 227) else (if x < 111 then 366 else 135))
        else
         if x < 120 then
          if x < 116 then (if x < 114 then (if x < 113 then 344 else 300) else (if x < 115 then 276 else 242)) else (if x < 118 then (if x < 117 then 437 else 320) else (if x < 119 then 113 else 278))
         else
          if x < 124 then (if x < 122 then (if x < 121 then 11 else 243) else (if x < 123 then 87 else 317)) else (if x < 126 then (if x < 125 then 36 else 93) else (if x < 127 then 496 else 27))
     else
      if x < 192 then
       if x < 160 then
        if x < 144 then
         if x < 136 then
          if x < 132 then (if x < 130 then (if x < 129 then 487 else 446) else (if x < 131 then 482 else 41)) else (if x < 134 then (if x < 133 then 68 else 156) else (if x < 135 then 457 else 131))
         else
          if x < 140 then (if x < 138 then (if x < 137 then 326 else 403) else (if x < 139 then 339 else 20)) else (if x < 142 then (if x < 141 then 39 else 115) else (if x < 143 then 442 else 124))
        else
         if x < 152 then
          if x < 148 then (if x < 146 then (if x < 145 then 475 else 384) else (if x < 147 then 508 else 53)) else (if x < 150 then (if x < 149 then 112 else 170) else (if x < 151 then 479 else 151))
         else
          if x < 156 then (if x < 154 then (if x < 153 then 126 else 169) else (if x < 155 then 73 else 268)) else (if x < 158 then (if x < 157 then 279 else 321) else (if x < 159 then 168 else 364))
       else
        if x < 176 then
         if x < 168 then
          if x < 164 then (if x < 162 then (if x < 161 then 363 else 292) else (if x < 163 then 46 else 499)) else (if x < 166 then (if x < 165 then 393 else 327) else (if x < 167 then 324 else 24))
         else
          if x < 172 then (if x < 170 then (if x < 169 then 456 else 267) else (if x < 171 then 157 else 460)) else (if x < 174 then (if x < 173 then 488 else 426) else (if x < 175 then 309 else 229))
        else
         if x < 184 then
          if x < 180 then (if x < 178 then (if x < 177 then 439 else 506) else (if x < 179 then 208 else 271)) else (if x < 182 then (if x < 181 then 349 else 401) else (if x < 183 then 434 else 236))
         else
          if x < 188 then (if x < 186 then (if x < 185 then 16 else 209) else (if x < 187 then 359 else 52)) else (if x < 190 then (if x < 189 then 56 else 120) else (if x < 191 then 199 else 277))
      else
       if x < 224 then
        if x < 208 then
         if x < 200 then
          if x < 196 then (if x < 194 then (if x < 193 then 465 else 416) else (if x < 195 then 252 else 287)) else (if x < 198 then (if x < 197 then 246 else 6) else (if x < 199 then 83 else 305))
         else
          if x < 204 then (if x < 202 then (if x < 201 then 420 else 345) else (if x < 203 then 153 else 502)) else (if x < 206 then (if x < 205 then 65 else 61) else (if x < 207 then 244 else 282))
        else
         if x < 216 then
          if x < 212 then (if x < 210 then (if x < 209 then 173 else 222) else (if x < 211 then 418 else 67)) else (if x < 214 then (if x < 213 then 386 else 368) else (if x < 215 then 261 else 101))
         else
          if x < 220 then (if x < 218 then (if x < 217 then 476 else 291) else (if x < 219 then 195 else 430)) else (if x < 222 then (if x < 221 then 49 else 79) else (if x < 223 then 166 else 330))
       else
        if x < 240 then
         if x < 232 then
          if x < 228 then (if x < 226 then (if x < 225 then 280 else 383) else (if x < 227 then 373 else 128)) else (if x < 230 then (if x < 229 then 382 else 408) else (if x < 231 then 155 else 495))
         else
          if x < 236 then (if x < 234 then (if x < 233 then 367 else 388) else (if x < 235 then 274 else 107)) else (if x < 238 then (if x < 237 then 459 else 417) else (if x < 239 then 62 else 454))
        else
         if x < 248 then
          if x < 244 then (if x < 242 then (if x < 241 then 132 else 225) else (if x < 243 then 203 else 316)) else (if x < 246 then (if x < 245 then 234 else 14) else (if x < 247 then 301 else 91))
         else
          if x < 252 then (if x < 250 then (if x < 249 then 503 else 286) else (if x < 251 then 424 else 211)) else (if x < 254 then (if x < 253 then 347 else 307) else (if x < 255 then 140 else 374))
    else
     if x < 384 then
      if x < 320 then
       if x < 288 then
        if x < 272 then
         if x < 264 then
          if x < 260 then (if x < 258 then (if x < 257 then 35 else 103) else (if x < 259 then 125 else 427)) else (if x < 262 then (if x < 261 then 19 else 214) else (if x < 263 then 453 else 146))
         else
          if x < 268 then (if x < 266 then (if x < 265 then 498 else 314) else (if x < 267 then 444 else 230)) else (if x < 270 then (if x < 269 then 256 else 329) else (if x < 271 then 198 else 285))
        else
         if x < 280 then
          if x < 276 then (if x < 274 then (if x < 273 then 50 else 116) else (if x < 275 then 78 else 410)) else (if x < 278 then (if x < 277 then 10 else 205) else (if x < 279 then 510 else 171))
         else
          if x < 284 then (if x < 282 then (if x < 281 then 231 else 45) else (if x < 283 then 139 else 467)) else (if x < 286 then (if x < 285 then 29 else 86) else (if x < 287 then 505 else 32))
       else
        if x < 304 then
         if x < 296 then
          if x < 292 then (if x < 290 then (if x < 289 then 72 else 26) else (if x < 291 then 342 else 150)) else (if x < 294 then (if x < 293 then 313 else 490) else (if x < 295 then 431 else 238))
         else
          if x < 300 then (if x < 298 then (if x < 297 then 411 else 325) else (if x < 299 then 149 else 473)) else (if x < 302 then (if x < 301 then 40 else 119) else (if x < 303 then 174 else 355))
        else
         if x < 312 then
          if x < 308 then (if x < 306 then (if x < 305 then 185 else 233) else (if x < 307 then 389 else 71)) else (if x < 310 then (if x < 309 then 448 else 273) else (if x < 311 then 372 else 55))
         else
          if x < 316 then (if x < 314 then (if x < 313 then 110 else 178) else (if x < 315 then 322 else 12)) else (if x < 318 then (if x < 317 then 469 else 392) else (if x < 319 then 369 else 190))
      else
       if x < 352 then
        if x < 336 then
         if x < 328 then
          if x < 324 then (if x < 322 then (if x < 321 then 1 else 109) else (if x < 323 then 375 else 137)) else (if x < 326 then (if x < 325 then 181 else 88) else (if x < 327 then 75 else 308))
         else
          if x < 332 then (if x < 330 then (if x < 329 then 260 else 484) else (if x < 331 then 98 else 272)) else (if x < 334 then (if x < 333 then 370 else 275) else (if x < 335 then 412 else 111))
        else
         if x < 344 then
          if x < 340 then (if x < 338 then (if x < 337 then 336 else 318) else (if x < 339 then 4 else 504)) else (if x < 342 then (if x < 341 then 492 else 259) else (if x < 343 then 304 else 77))
         else
          if x < 348 then (if x < 346 then (if x < 345 then 337 else 435) else (if x < 347 then 21 else 357)) else (if x < 350 then (if x < 349 then 303 else 332) else (if x < 351 then 483 else 18))
       else
        if x < 368 then
         if x < 360 then
          if x < 356 then (if x < 354 then (if x < 353 then 47 else 85) else (if x < 355 then 25 else 497)) else (if x < 358 then (if x < 357 then 474 else 289) else (if x < 359 then 100 else 269))
         else
          if x < 364 then (if x < 362 then (if x < 361 then 296 else 478) else (if x < 363 then 270 else 106)) else (if x < 366 then (if x < 365 then 31 else 104) else (if x < 367 then 433 else 84))
        else
         if x < 376 then
          if x < 372 then (if x < 370 then (if x < 369 then 414 else 486) else (if x < 371 then 394 else 96)) else (if x < 374 then (if x < 373 then 99 else 154) else (if x < 375 then 511 else 148))
         else
          if x < 380 then (if x < 378 then (if x < 377 then 413 else 361) else (if x < 379 then 409 else 255)) else (if x < 382 then (if x < 381 then 162 else 215) else (if x < 383 then 302 else 201))
     else
      if x < 448 then
       if x < 416 then
        if x < 400 then
         if x < 392 then
          if x < 388 then (if x < 386 then (if x < 385 then 266 else 351) else (if x < 387 then 343 else 144)) else (if x < 390 then (if x < 389 then 441 else 365) else (if x < 391 then 108 else 298))
         else
          if x < 396 then (if x < 394 then (if x < 393 then 251 else 34) else (if x < 395 then 182 else 509)) else (if x < 398 then (if x < 397 then 138 else 210) else (if x < 399 then 335 else 133))
        else
         if x < 408 then
          if x < 404 then (if x < 402 then (if x < 401 then 311 else 352) else (if x < 403 then 328 else 141)) else (if x < 406 then (if x < 405 then 396 else 346) else (if x < 407 then 123 else 319))
         else
          if x < 412 then (if x < 410 then (if x < 409 then 450 else 281) else (if x < 411 then 429 else 228)) else (if x < 414 then (if x < 413 then 443 else 481) else (if x < 415 then 92 else 404))
       else
        if x < 432 then
         if x < 424 then
          if x < 420 then (if x < 418 then (if x < 417 then 485 else 422) else (if x < 419 then 248 else 297)) else (if x < 422 then (if x < 421 then 23 else 213) else (if x < 423 then 130 else 466))
         else
          if x < 428 then (if x < 426 then (if x < 425 then 22 else 217) else (if x < 427 then 283 else 70)) else (if x < 430 then (if x < 429 then 294 else 360) else (if x < 431 then 419 else 127))
        else
         if x < 440 then
          if x < 436 then (if x < 434 then (if x < 433 then 312 else 377) else (if x < 435 then 7 else 468)) else (if x < 438 then (if x < 437 then 194 else 2) else (if x < 439 then 117 else 295))
         else
          if x < 444 then (if x < 442 then (if x < 441 then 463 else 258) else (if x < 443 then 224 else 447)) else (if x < 446 then (if x < 445 then 247 else 187) else (if x < 447 then 80 else 398))
      else
       if x < 480 then
        if x < 464 then
         if x < 456 then
          if x < 452 then (if x < 450 then (if x < 449 then 284 else 353) else (if x < 451 then 105 else 390)) else (if x < 454 then (if x < 453 then 299 else 471) else (if x < 455 then 470 else 184))
         else
          if x < 460 then (if x < 458 then (if x < 457 then 57 else 200) else (if x < 459 then 348 else 63)) else (if x < 462 then (if x < 461 then 204 else 188) else (if x < 463 then 33 else 451))
        else
         if x < 472 then
          if x < 468 then (if x < 466 then (if x < 465 then 97 else 30) else (if x < 467 then 310 else 219)) else (if x < 470 then (if x < 469 then 94 else 160) else (if x < 471 then 129 else 493))
         else
          if x < 476 then (if x < 474 then (if x < 473 then 64 else 179) else (if x < 475 then 263 else 102)) else (if x < 478 then (if x < 477 then 189 else 207) else (if x < 479 then 114 else 402))
       else
        if x < 496 then
         if x < 488 then
          if x < 484 then (if x < 482 then (if x < 481 then 438 else 477) else (if x < 483 then 387 else 122)) else (if x < 486 then (if x < 485 then 192 else 42) else (if x < 487 then 381 else 5))
         else
          if x < 492 then (if x < 490 then (if x < 489 then 145 else 118) else (if x < 491 then 180 else 449)) else (if x < 494 then (if x < 493 then 293 else 323) else (if x < 495 then 136 else 380))
        else
         if x < 504 then
          if x < 500 then (if x < 498 then (if x < 497 then 43 else 66) else (if x < 499 then 60 else 455)) else (if x < 502 then (if x < 501 then 341 else 445) else (if x < 503 then 202 else 432))
         else
          if x < 508 then (if x < 506 then (if x < 505 then 8 else 237) else (if x < 507 then 15 else 376)) else (if x < 510 then (if x < 509 then 436 else 464) else (if x < 511 then 59 else 461))
  }

  // ---- the inverse tables ----

  function S7Inverse(x: bv7): bv7 {
    if x < 64 then
     if x < 32 then
      if x < 16 then
       if x < 8 then
        if x < 4 then (if x < 2 then (if x < 1 then 70 else 57) else (if x < 3 then 12 else 127)) else (if x < 6 then (if x < 5 then 101 else 83) else (if x < 7 then 9 else 59))
       else
        if x < 12 then (if x < 10 then (if x < 9 then 89 else 33) else (if x < 11 then 61 else 67)) else (if x < 14 then (if x < 13 then 23 else 54) else (if x < 15 then 85 else 122))
      else
       if x < 24 then
        if x < 20 then (if x < 18 then (if x < 17 then 58 else 82) else (if x < 19 then 13 else 121)) else (if x < 22 then (if x < 21 then 48 else 20) else (if x < 23 then 4 else 52))
       else
        if x < 28 then (if x < 26 then (if x < 25 then 115 else 28) else (if x < 27 then 98 else 27)) else (if x < 30 then (if x < 29 then 94 else 109) else (if x < 31 then 76 else 97))
     else
      if x < 48 then
       if x < 40 then
        if x < 36 then (if x < 34 then (if x < 33 then 92 else 15) else (if x < 35 then 5 else 90)) else (if x < 38 then (if x < 37 then 118 else 104) else (if x < 39 then 8 else 18))
       else
        if x < 44 then (if x < 42 then (if x < 41 then 42 else 123) else (if x < 43 then 120 else 47)) else (if x < 46 then (if x < 45 then 111 else 99) else (if x < 47 then 26 else 24))
      else
       if x < 56 then
        if x < 52 then (if x < 50 then (if x < 49 then 39 else 107) else (if x < 51 then 1 else 81)) else (if x < 54 then (if x < 53 then 36 else 32) else (if x < 55 then 0 else 16))
       else
        if x < 60 then (if x < 58 then (if x < 57 then 3 else 77) else (if x < 59 then 38 else 126)) else (if x < 62 then (if x < 61 then 37 else 51) else (if x < 63 then 2 else 10))
    else
     if x < 96 then
      if x < 80 then
       if x < 72 then
        if x < 68 then (if x < 66 then (if x < 65 then 112 else 22) else (if x < 67 then 95 else 21)) else (if x < 70 then (if x < 69 then 108 else 75) else (if x < 71 then 45 else 46))
       else
        if x < 76 then (if x < 74 then (if x < 73 then 50 else 25) else (if x < 75 then 105 else 100)) else (if x < 78 then (if x < 77 then 66 else 56) else (if x < 79 then 119 else 35))
      else
       if x < 88 then
        if x < 84 then (if x < 82 then (if x < 81 then 106 else 31) else (if x < 83 then 60 else 117)) else (if x < 86 then (if x < 85 then 87 else 102) else (if x < 87 then 74 else 79))
       else
        if x < 92 then (if x < 90 then (if x < 89 then 124 else 68) else (if x < 91 then 86 else 88)) else (if x < 94 then (if x < 93 then 103 else 11) else (if x < 95 then 6 else 84))
     else
      if x < 112 then
       if x < 104 then
        if x < 100 then (if x < 98 then (if x < 97 then 7 else 93) else (if x < 99 then 63 else 73)) else (if x < 102 then (if x < 101 then 55 else 40) else (if x < 103 then 96 else 91))
       else
        if x < 108 then (if x < 106 then (if x < 105 then 44 else 62) else (if x < 107 then 69 else 113)) else (if x < 110 then (if x < 109 then 114 else 53) else (if x < 111 then 116 else 29))
      else
       if x < 120 then
        if x < 116 then (if x < 114 then (if x < 113 then 80 else 17) else (if x < 115 then 19 else 110)) else (if x < 118 then (if x < 117 then 65 else 64) else (if x < 119 then 72 else 125))
       else
        if x < 124 then (if x < 122 then (if x < 121 then 43 else 34) else (if x < 123 then 49 else 14)) else (if x < 126 then (if x < 125 then 30 else 71) else (if x < 127 then 78 else 41))
  }

  function S9Inverse(x: bv9): bv9 {
    if x < 256 then
     if x < 128 then
      if x < 64 then
       if x < 32 then
        if x < 16 then
         if x < 8 then
          if x < 4 then (if x < 2 then (if x < 1 then 38 else 320) else (if x < 3 then 437 else 49)) else (if x < 6 then (if x < 5 then 338 else 487) else (if x < 7 then 197 else 434))
         else
          if x < 12 then (if x < 10 then (if x < 9 then 504 else 6) else (if x < 11 then 276 else 120)) else (if x < 14 then (if x < 13 then 315 else 100) else (if x < 15 then 245 else 506))
        else
         if x < 24 then
          if x < 20 then (if x < 18 then (if x < 17 then 184 else 37) else (if x < 19 then 351 else 260)) else (if x < 22 then (if x < 21 then 139 else 346) else (if x < 23 then 424 else 420))
         else
          if x < 28 then (if x < 26 then (if x < 25 then 167 else 354) else (if x < 27 then 289 else 127)) else (if x < 30 then (if x < 29 then 73 else 284) else (if x < 31 then 465 else 364))
       else
        if x < 48 then
         if x < 40 then
          if x < 36 then (if x < 34 then (if x < 33 then 287 else 462) else (if x < 35 then 393 else 256)) else (if x < 38 then (if x < 37 then 124 else 35) else (if x < 39 then 8 else 140))
         else
          if x < 44 then (if x < 42 then (if x < 41 then 300 else 131) else (if x < 43 then 485 else 496)) else (if x < 46 then (if x < 45 then 40 else 281) else (if x < 47 then 162 else 352))
        else
         if x < 56 then
          if x < 52 then (if x < 50 then (if x < 49 then 10 else 220) else (if x < 51 then 272 else 22)) else (if x < 54 then (if x < 53 then 187 else 147) else (if x < 55 then 52 else 311))
         else
          if x < 60 then (if x < 58 then (if x < 57 then 188 else 456) else (if x < 59 then 43 else 510)) else (if x < 62 then (if x < 61 then 498 else 205) else (if x < 63 then 238 else 459))
      else
       if x < 96 then
        if x < 80 then
         if x < 72 then
          if x < 68 then (if x < 66 then (if x < 65 then 472 else 204) else (if x < 67 then 497 else 211)) else (if x < 70 then (if x < 69 then 132 else 105) else (if x < 71 then 427 else 307))
         else
          if x < 76 then (if x < 74 then (if x < 73 then 288 else 154) else (if x < 75 then 89 else 326)) else (if x < 78 then (if x < 77 then 63 else 343) else (if x < 79 then 274 else 221))
        else
         if x < 88 then
          if x < 84 then (if x < 82 then (if x < 81 then 446 else 46) else (if x < 83 then 27 else 198)) else (if x < 86 then (if x < 85 then 367 else 353) else (if x < 87 then 285 else 122))
         else
          if x < 92 then (if x < 90 then (if x < 89 then 325 else 84) else (if x < 91 then 14 else 247)) else (if x < 94 then (if x < 93 then 414 else 125) else (if x < 95 then 468 else 48))
       else
        if x < 112 then
         if x < 104 then
          if x < 100 then (if x < 98 then (if x < 97 then 371 else 464) else (if x < 99 then 330 else 372)) else (if x < 102 then (if x < 101 then 358 else 215) else (if x < 103 then 475 else 257))
         else
          if x < 108 then (if x < 106 then (if x < 105 then 365 else 450) else (if x < 107 then 363 else 235)) else (if x < 110 then (if x < 109 then 390 else 321) else (if x < 111 then 312 else 335))
        else
         if x < 120 then
          if x < 116 then (if x < 114 then (if x < 113 then 148 else 118) else (if x < 115 then 478 else 141)) else (if x < 118 then (if x < 117 then 273 else 438) else (if x < 119 then 489 else 301))
         else
          if x < 124 then (if x < 122 then (if x < 121 then 189 else 67) else (if x < 123 then 483 else 406)) else (if x < 126 then (if x < 125 then 143 else 258) else (if x < 127 then 152 else 431))
     else
      if x < 192 then
       if x < 160 then
        if x < 144 then
         if x < 136 then
          if x < 132 then (if x < 130 then (if x < 129 then 227 else 470) else (if x < 131 then 422 else 135)) else (if x < 134 then (if x < 133 then 240 else 399) else (if x < 135 then 98 else 111))
         else
          if x < 140 then (if x < 138 then (if x < 137 then 494 else 323) else (if x < 139 then 396 else 282)) else (if x < 142 then (if x < 141 then 254 else 403) else (if x < 143 then 103 else 44))
        else
         if x < 152 then
          if x < 148 then (if x < 146 then (if x < 145 then 387 else 488) else (if x < 147 then 263 else 18)) else (if x < 150 then (if x < 149 then 375 else 298) else (if x < 151 then 291 else 151))
         else
          if x < 156 then (if x < 154 then (if x < 153 then 108 else 202) else (if x < 155 then 373 else 230)) else (if x < 158 then (if x < 157 then 133 else 170) else (if x < 159 then 97 else 29))
       else
        if x < 176 then
         if x < 168 then
          if x < 164 then (if x < 162 then (if x < 161 then 469 else 2) else (if x < 163 then 380 else 95)) else (if x < 166 then (if x < 165 then 88 else 64) else (if x < 167 then 222 else 0))
         else
          if x < 172 then (if x < 170 then (if x < 169 then 158 else 153) else (if x < 171 then 149 else 279)) else (if x < 174 then (if x < 173 then 58 else 208) else (if x < 175 then 302 else 32))
        else
         if x < 184 then
          if x < 180 then (if x < 178 then (if x < 177 then 75 else 31) else (if x < 179 then 313 else 473)) else (if x < 182 then (if x < 181 then 490 else 324) else (if x < 183 then 394 else 16))
         else
          if x < 188 then (if x < 186 then (if x < 185 then 455 else 304) else (if x < 187 then 85 else 445)) else (if x < 190 then (if x < 189 then 461 else 476) else (if x < 191 then 319 else 104))
      else
       if x < 224 then
        if x < 208 then
         if x < 200 then
          if x < 196 then (if x < 194 then (if x < 193 then 484 else 106) else (if x < 195 then 436 else 218)) else (if x < 198 then (if x < 197 then 91 else 65) else (if x < 199 then 270 else 190))
         else
          if x < 204 then (if x < 202 then (if x < 201 then 457 else 383) else (if x < 203 then 502 else 242)) else (if x < 206 then (if x < 205 then 460 else 277) else (if x < 207 then 36 else 477))
        else
         if x < 216 then
          if x < 212 then (if x < 210 then (if x < 209 then 178 else 185) else (if x < 211 then 397 else 251)) else (if x < 214 then (if x < 213 then 71 else 421) else (if x < 215 then 261 else 381))
         else
          if x < 220 then (if x < 218 then (if x < 217 then 28 else 425) else (if x < 219 then 54 else 467)) else (if x < 222 then (if x < 221 then 45 else 86) else (if x < 223 then 209 else 79))
       else
        if x < 240 then
         if x < 232 then
          if x < 228 then (if x < 226 then (if x < 225 then 442 else 241) else (if x < 227 then 9 else 109)) else (if x < 230 then (if x < 229 then 411 else 175) else (if x < 231 then 267 else 280))
         else
          if x < 236 then (if x < 234 then (if x < 233 then 96 else 305) else (if x < 235 then 244 else 53)) else (if x < 238 then (if x < 237 then 183 else 505) else (if x < 239 then 295 else 1))
        else
         if x < 248 then
          if x < 244 then (if x < 242 then (if x < 241 then 72 else 33) else (if x < 243 then 115 else 121)) else (if x < 246 then (if x < 245 then 206 else 51) else (if x < 247 then 196 else 444))
         else
          if x < 252 then (if x < 250 then (if x < 249 then 418 else 82) else (if x < 251 then 101 else 392)) else (if x < 254 then (if x < 253 then 194 else 17) else (if x < 255 then 41 else 379))
    else
     if x < 384 then
      if x < 320 then
       if x < 288 then
        if x < 272 then
         if x < 264 then
          if x < 260 then (if x < 258 then (if x < 257 then 268 else 68) else (if x < 259 then 441 else 341)) else (if x < 262 then (if x < 261 then 328 else 214) else (if x < 263 then 26 else 474))
         else
          if x < 268 then (if x < 266 then (if x < 265 then 57 else 83) else (if x < 267 then 384 else 169)) else (if x < 270 then (if x < 269 then 155 else 359) else (if x < 271 then 362 else 179))
        else
         if x < 280 then
          if x < 276 then (if x < 274 then (if x < 273 then 331 else 309) else (if x < 275 then 234 else 333)) else (if x < 278 then (if x < 277 then 114 else 191) else (if x < 279 then 119 else 156))
         else
          if x < 284 then (if x < 282 then (if x < 281 then 224 else 409) else (if x < 283 then 207 else 426)) else (if x < 286 then (if x < 285 then 448 else 271) else (if x < 287 then 249 else 195))
       else
        if x < 304 then
         if x < 296 then
          if x < 292 then (if x < 290 then (if x < 289 then 78 else 357) else (if x < 291 then 61 else 217)) else (if x < 294 then (if x < 293 then 161 else 492) else (if x < 295 then 428 else 439))
         else
          if x < 300 then (if x < 298 then (if x < 297 then 360 else 419) else (if x < 299 then 391 else 452)) else (if x < 302 then (if x < 301 then 113 else 246) else (if x < 303 then 382 else 348))
        else
         if x < 312 then
          if x < 308 then (if x < 306 then (if x < 305 then 342 else 199) else (if x < 307 then 24 else 253)) else (if x < 310 then (if x < 309 then 327 else 174) else (if x < 311 then 466 else 400))
         else
          if x < 316 then (if x < 314 then (if x < 313 then 432 else 292) else (if x < 315 then 265 else 50)) else (if x < 318 then (if x < 317 then 243 else 123) else (if x < 319 then 337 else 407))
      else
       if x < 352 then
        if x < 336 then
         if x < 328 then
          if x < 324 then (if x < 322 then (if x < 321 then 117 else 157) else (if x < 323 then 314 else 493)) else (if x < 326 then (if x < 325 then 166 else 297) else (if x < 327 then 136 else 165))
         else
          if x < 332 then (if x < 330 then (if x < 329 then 402 else 269) else (if x < 331 then 223 else 19)) else (if x < 334 then (if x < 333 then 349 else 39) else (if x < 335 then 5 else 398))
        else
         if x < 344 then
          if x < 340 then (if x < 338 then (if x < 337 then 336 else 344) else (if x < 339 then 7 else 138)) else (if x < 342 then (if x < 341 then 21 else 500) else (if x < 343 then 290 else 386))
         else
          if x < 348 then (if x < 346 then (if x < 345 then 112 else 201) else (if x < 347 then 405 else 252)) else (if x < 350 then (if x < 349 then 458 else 180) else (if x < 351 then 94 else 385))
       else
        if x < 368 then
         if x < 360 then
          if x < 356 then (if x < 354 then (if x < 353 then 401 else 449) else (if x < 355 then 99 else 303)) else (if x < 358 then (if x < 357 then 30 else 347) else (if x < 359 then 11 else 186))
         else
          if x < 364 then (if x < 362 then (if x < 361 then 429 else 377) else (if x < 363 then 23 else 160)) else (if x < 366 then (if x < 365 then 159 else 389) else (if x < 367 then 110 else 232))
        else
         if x < 376 then
          if x < 372 then (if x < 370 then (if x < 369 then 213 else 318) else (if x < 371 then 332 else 60)) else (if x < 374 then (if x < 373 then 310 else 226) else (if x < 375 then 255 else 322))
         else
          if x < 380 then (if x < 378 then (if x < 377 then 507 else 433) else (if x < 379 then 42 else 3)) else (if x < 382 then (if x < 381 then 495 else 486) else (if x < 383 then 228 else 225))
     else
      if x < 448 then
       if x < 416 then
        if x < 400 then
         if x < 392 then
          if x < 388 then (if x < 386 then (if x < 385 then 145 else 13) else (if x < 387 then 212 else 482)) else (if x < 390 then (if x < 389 then 233 else 306) else (if x < 391 then 451 else 4))
         else
          if x < 396 then (if x < 394 then (if x < 393 then 317 else 164) else (if x < 395 then 370 else 66)) else (if x < 398 then (if x < 397 then 404 else 15) else (if x < 399 then 447 else 62))
        else
         if x < 408 then
          if x < 404 then (if x < 402 then (if x < 401 then 47 else 181) else (if x < 403 then 479 else 137)) else (if x < 406 then (if x < 405 then 415 else 55) else (if x < 407 then 76 else 81))
         else
          if x < 412 then (if x < 410 then (if x < 409 then 229 else 378) else (if x < 411 then 275 else 296)) else (if x < 414 then (if x < 413 then 334 else 376) else (if x < 415 then 368 else 20))
       else
        if x < 432 then
         if x < 424 then
          if x < 420 then (if x < 418 then (if x < 417 then 193 else 237) else (if x < 419 then 210 else 430)) else (if x < 422 then (if x < 421 then 200 else 93) else (if x < 423 then 417 else 70))
         else
          if x < 428 then (if x < 426 then (if x < 425 then 250 else 107) else (if x < 427 then 173 else 259)) else (if x < 430 then (if x < 429 then 87 else 410) else (if x < 431 then 219 else 294))
        else
         if x < 440 then
          if x < 436 then (if x < 434 then (if x < 433 then 503 else 366) else (if x < 435 then 182 else 345)) else (if x < 438 then (if x < 437 then 508 else 116) else (if x < 439 then 480 else 176))
         else
          if x < 444 then (if x < 442 then (if x < 441 then 90 else 388) else (if x < 443 then 142 else 412)) else (if x < 446 then (if x < 445 then 266 else 501) else (if x < 447 then 129 else 443))
      else
       if x < 480 then
        if x < 464 then
         if x < 456 then
          if x < 452 then (if x < 450 then (if x < 449 then 308 else 491) else (if x < 451 then 408 else 463)) else (if x < 454 then (if x < 453 then 12 else 262) else (if x < 455 then 239 else 499))
         else
          if x < 460 then (if x < 458 then (if x < 457 then 168 else 134) else (if x < 459 then 92 else 236)) else (if x < 462 then (if x < 461 then 171 else 511) else (if x < 463 then 74 else 440))
        else
         if x < 472 then
          if x < 468 then (if x < 466 then (if x < 465 then 509 else 192) else (if x < 467 then 423 else 283)) else (if x < 470 then (if x < 469 then 435 else 316) else (if x < 471 then 454 else 453))
         else
          if x < 476 then (if x < 474 then (if x < 473 then 56 else 299) else (if x < 475 then 356 else 144)) else (if x < 478 then (if x < 477 then 216 else 481) else (if x < 479 then 361 else 150))
       else
        if x < 496 then
         if x < 488 then
          if x < 484 then (if x < 482 then (if x < 481 then 69 else 413) else (if x < 483 then 130 else 350)) else (if x < 486 then (if x < 485 then 329 else 416) else (if x < 487 then 369 else 128))
         else
          if x < 492 then (if x < 490 then (if x < 489 then 172 else 34) else (if x < 491 then 293 else 102)) else (if x < 494 then (if x < 493 then 340 else 471) else (if x < 495 then 59 else 231))
        else
         if x < 504 then
          if x < 500 then (if x < 498 then (if x < 497 then 126 else 355) else (if x < 499 then 264 else 163)) else (if x < 502 then (if x < 501 then 25 else 80) else (if x < 503 then 203 else 248))
         else
          if x < 508 then (if x < 506 then (if x < 505 then 339 else 286) else (if x < 507 then 177 else 77)) else (if x < 510 then (if x < 509 then 146 else 395) else (if x < 511 then 278 else 374))
  }

  /** Both tables are permutations: each inverse undoes its table on either side. */
  lemma S7Bijective(x: bv7)
    ensures S7Inverse(S7(x)) == x && S7(S7Inverse(x)) == x
  {
  }

  lemma S9Bijective0(x: bv9)
    requires x < 32
    ensures S9Inverse(S9(x)) == x && S9(S9Inverse(x)) == x
  {
  }

  lemma S9Bijective1(x: bv9)
    requires 32 <= x < 64
    ensures S9Inverse(S9(x)) == x && S9(S9Inverse(x)) == x
  {
  }

  lemma S9Bijective2(x: bv9)
    requires 64 <= x < 96
    ensures S9Inverse(S9(x)) == x && S9(S9Inverse(x)) == x
  {
  }

  lemma S9Bijective3(x: bv9)
    requires 96 <= x < 128
    ensures S9Inverse(S9(x)) == x && S9(S9Inverse(x)) == x
  {
  }

  lemma S9Bijective4(x: bv9)
    requires 128 <= x < 160
    ensures S9Inverse(S9(x)) == x && S9(S9Inverse(x)) == x
  {
  }

  lemma S9Bijective5(x: bv9)
    requires 160 <= x < 192
    ensures S9Inverse(S9(x)) == x && S9(S9Inverse(x)) == x
  {
  }

  lemma S9Bijective6(x: bv9)
    requires 192 <= x < 224
    ensures S9Inverse(S9(x)) == x && S9(S9Inverse(x)) == x
  {
  }

  lemma S9Bijective7(x: bv9)
    requires 224 <= x < 256
    ensures S9Inverse(S9(x)) == x && S9(S9Inverse(x)) == x
  {
  }

  lemma S9Bijective8(x: bv9)
    requires 256 <= x < 288
    ensures S9Inverse(S9(x)) == x && S9(S9Inverse(x)) == x
  {
  }

  lemma S9Bijective9(x: bv9)
    requires 288 <= x < 320
    ensures S9Inverse(S9(x)) == x && S9(S9Inverse(x)) == x
  {
  }

  lemma S9Bijective10(x: bv9)
    requires 320 <= x < 352
    ensures S9Inverse(S9(x)) == x && S9(S9Inverse(x)) == x
  {
  }

  lemma S9Bijective11(x: bv9)
    requires 352 <= x < 384
    ensures S9Inverse(S9(x)) == x && S9(S9Inverse(x)) == x
  {
  }

  lemma S9Bijective12(x: bv9)
    requires 384 <= x < 416
    ensures S9Inverse(S9(x)) == x && S9(S9Inverse(x)) == x
  {
  }

  lemma S9Bijective13(x: bv9)
    requires 416 <= x < 448
    ensures S9Inverse(S9(x)) == x && S9(S9Inverse(x)) == x
  {
  }

  lemma S9Bijective14(x: bv9)
    requires 448 <= x < 480
    ensures S9Inverse(S9(x)) == x && S9(S9Inverse(x)) == x
  {
  }

  lemma S9Bijective15(x: bv9)
    requires 480 <= x
    ensures S9Inverse(S9(x)) == x && S9(S9Inverse(x)) == x
  {
  }

  lemma S9Bijective(x: bv9)
    ensures S9Inverse(S9(x)) == x && S9(S9Inverse(x)) == x
  {
    hide S9, S9Inverse;
    if
    case x < 32 => S9Bijective0(x);
    case 32 <= x < 64 => S9Bijective1(x);
    case 64 <= x < 96 => S9Bijective2(x);
    case 96 <= x < 128 => S9Bijective3(x);
    case 128 <= x < 160 => S9Bijective4(x);
    case 160 <= x < 192 => S9Bijective5(x);
    case 192 <= x < 224 => S9Bijective6(x);
    case 224 <= x < 256 => S9Bijective7(x);
    case 256 <= x < 288 => S9Bijective8(x);
    case 288 <= x < 320 => S9Bijective9(x);
    case 320 <= x < 352 => S9Bijective10(x);
    case 352 <= x < 384 => S9Bijective11(x);
    case 384 <= x < 416 => S9Bijective12(x);
    case 416 <= x < 448 => S9Bijective13(x);
    case 448 <= x < 480 => S9Bijective14(x);
    case 480 <= x => S9Bijective15(x);
  }
}
