/** The combined S-box and permutation tables SP1 .. SP8 of des.c, looked up by a six-bit index. */
module DesBoxes {

  function Sp1(x: bv6): bv32 {
    if x < 32 then
     if x < 16 then
      if x < 8 then
       if x < 4 then
        if x < 2 then (if x < 1 then 0x01010400 else 0x00000000) else (if x < 3 then 0x00010000 else 0x01010404)
       else
        if x < 6 then (if x < 5 then 0x01010004 else 0x00010404) else (if x < 7 then 0x00000004 else 0x00010000)
      else
       if x < 12 then
        if x < 10 then (if x < 9 then 0x00000400 else 0x01010400) else (if x < 11 then 0x01010404 else 0x00000400)
       else
        if x < 14 then (if x < 13 then 0x01000404 else 0x01010004) else (if x < 15 then 0x01000000 else 0x00000004)
     else
      if x < 24 then
       if x < 20 then
        if x < 18 then (if x < 17 then 0x00000404 else 0x01000400) else (if x < 19 then 0x01000400 else 0x00010400)
       else
        if x < 22 then (if x < 21 then 0x00010400 else 0x01010000) else (if x < 23 then 0x01010000 else 0x01000404)
      else
       if x < 28 then
        if x < 26 then (if x < 25 then 0x00010004 else 0x01000004) else (if x < 27 then 0x01000004 else 0x00010004)
       else
        if x < 30 then (if x < 29 then 0x00000000 else 0x00000404) else (if x < 31 then 0x00010404 else 0x01000000)
    else
     if x < 48 then
      if x < 40 then
       if x < 36 then
        if x < 34 then (if x < 33 then 0x00010000 else 0x01010404) else (if x < 35 then 0x00000004 else 0x01010000)
       else
        if x < 38 then (if x < 37 then 0x01010400 else 0x01000000) else (if x < 39 then 0x01000000 else 0x00000400)
      else
       if x < 44 then
        if x < 42 then (if x < 41 then 0x01010004 else 0x00010000) else (if x < 43 then 0x00010400 else 0x01000004)
       else
        if x < 46 then (if x < 45 then 0x00000400 else 0x00000004) else (if x < 47 then 0x01000404 else 0x00010404)
     else
      if x < 56 then
       if x < 52 then
        if x < 50 then (if x < 49 then 0x01010404 else 0x00010004) else (if x < 51 then 0x01010000 else 0x01000404)
       else
        if x < 54 then (if x < 53 then 0x01000004 else 0x00000404) else (if x < 55 then 0x00010404 else 0x01010400)
      else
       if x < 60 then
        if x < 58 then (if x < 57 then 0x00000404 else 0x01000400) else (if x < 59 then 0x01000400 else 0x00000000)
       else
        if x < 62 then (if x < 61 then 0x00010004 else 0x00010400) else (if x < 63 then 0x00000000 else 0x01010004)
  }

  function Sp2(x: bv6): bv32 {
    if x < 32 then
     if x < 16 then
      if x < 8 then
       if x < 4 then
        if x < 2 then (if x < 1 then 0x80108020 else 0x80008000) else (if x < 3 then 0x00008000 else 0x00108020)
       else
        if x < 6 then (if x < 5 then 0x00100000 else 0x00000020) else (if x < 7 then 0x80100020 else 0x80008020)
      else
       if x < 12 then
        if x < 10 then (if x < 9 then 0x80000020 else 0x80108020) else (if x < 11 then 0x80108000 else 0x80000000)
       else
        if x < 14 then (if x < 13 then 0x80008000 else 0x00100000) else (if x < 15 then 0x00000020 else 0x80100020)
     else
      if x < 24 then
       if x < 20 then
        if x < 18 then (if x < 17 then 0x00108000 else 0x00100020) else (if x < 19 then 0x80008020 else 0x00000000)
       else
        if x < 22 then (if x < 21 then 0x80000000 else 0x00008000) else (if x < 23 then 0x00108020 else 0x80100000)
      else
       if x < 28 then
        if x < 26 then (if x < 25 then 0x00100020 else 0x80000020) else (if x < 27 then 0x00000000 else 0x00108000)
       else
        if x < 30 then (if x < 29 then 0x00008020 else 0x80108000) else (if x < 31 then 0x80100000 else 0x00008020)
    else
     if x < 48 then
      if x < 40 then
       if x < 36 then
        if x < 34 then (if x < 33 then 0x00000000 else 0x00108020) else (if x < 35 then 0x80100020 else 0x00100000)
       else
        if x < 38 then (if x < 37 then 0x80008020 else 0x80100000) else (if x < 39 then 0x80108000 else 0x00008000)
      else
       if x < 44 then
        if x < 42 then (if x < 41 then 0x80100000 else 0x80008000) else (if x < 43 then 0x00000020 else 0x80108020)
       else
        if x < 46 then (if x < 45 then 0x00108020 else 0x00000020) else (if x < 47 then 0x00008000 else 0x80000000)
     else
      if x < 56 then
       if x < 52 then
        if x < 50 then (if x < 49 then 0x00008020 else 0x80108000) else (if x < 51 then 0x00100000 else 0x80000020)
       else
        if x < 54 then (if x < 53 then 0x00100020 else 0x80008020) else (if x < 55 then 0x80000020 else 0x00100020)
      else
       if x < 60 then
        if x < 58 then (if x < 57 then 0x00108000 else 0x00000000) else (if x < 59 then 0x80008000 else 0x00008020)
       else
        if x < 62 then (if x < 61 then 0x80000000 else 0x80100020) else (if x < 63 then 0x80108020 else 0x00108000)
  }

  function Sp3(x: bv6): bv32 {
    if x < 32 then
     if x < 16 then
      if x < 8 then
       if x < 4 then
        if x < 2 then (if x < 1 then 0x00000208 else 0x08020200) else (if x < 3 then 0x00000000 else 0x08020008)
       else
        if x < 6 then (if x < 5 then 0x08000200 else 0x00000000) else (if x < 7 then 0x00020208 else 0x08000200)
      else
       if x < 12 then
        if x < 10 then (if x < 9 then 0x00020008 else 0x08000008) else (if x < 11 then 0x08000008 else 0x00020000)
       else
        if x < 14 then (if x < 13 then 0x08020208 else 0x00020008) else (if x < 15 then 0x08020000 else 0x00000208)
     else
      if x < 24 then
       if x < 20 then
        if x < 18 then (if x < 17 then 0x08000000 else 0x00000008) else (if x < 19 then 0x08020200 else 0x00000200)
       else
        if x < 22 then (if x < 21 then 0x00020200 else 0x08020000) else (if x < 23 then 0x08020008 else 0x00020208)
      else
       if x < 28 then
        if x < 26 then (if x < 25 then 0x08000208 else 0x00020200) else (if x < 27 then 0x00020000 else 0x08000208)
       else
        if x < 30 then (if x < 29 then 0x00000008 else 0x08020208) else (if x < 31 then 0x00000200 else 0x08000000)
    else
     if x < 48 then
      if x < 40 then
       if x < 36 then
        if x < 34 then (if x < 33 then 0x08020200 else 0x08000000) else (if x < 35 then 0x00020008 else 0x00000208)
       else
        if x < 38 then (if x < 37 then 0x00020000 else 0x08020200) else (if x < 39 then 0x08000200 else 0x00000000)
      else
       if x < 44 then
        if x < 42 then (if x < 41 then 0x00000200 else 0x00020008) else (if x < 43 then 0x08020208 else 0x08000200)
       else
        if x < 46 then (if x < 45 then 0x08000008 else 0x00000200) else (if x < 47 then 0x00000000 else 0x08020008)
     else
      if x < 56 then
       if x < 52 then
        if x < 50 then (if x < 49 then 0x08000208 else 0x00020000) else (if x < 51 then 0x08000000 else 0x08020208)
       else
        if x < 54 then (if x < 53 then 0x00000008 else 0x00020208) else (if x < 55 then 0x00020200 else 0x08000008)
      else
       if x < 60 then
        if x < 58 then (if x < 57 then 0x08020000 else 0x08000208) else (if x < 59 then 0x00000208 else 0x08020000)
       else
        if x < 62 then (if x < 61 then 0x00020208 else 0x00000008) else (if x < 63 then 0x08020008 else 0x00020200)
  }

  function Sp4(x: bv6): bv32 {
    if x < 32 then
     if x < 16 then
      if x < 8 then
       if x < 4 then
        if x < 2 then (if x < 1 then 0x00802001 else 0x00002081) else (if x < 3 then 0x00002081 else 0x00000080)
       else
        if x < 6 then (if x < 5 then 0x00802080 else 0x00800081) else (if x < 7 then 0x00800001 else 0x00002001)
      else
       if x < 12 then
        if x < 10 then (if x < 9 then 0x00000000 else 0x00802000) else (if x < 11 then 0x00802000 else 0x00802081)
       else
        if x < 14 then (if x < 13 then 0x00000081 else 0x00000000) else (if x < 15 then 0x00800080 else 0x00800001)
     else
      if x < 24 then
       if x < 20 then
        if x < 18 then (if x < 17 then 0x00000001 else 0x00002000) else (if x < 19 then 0x00800000 else 0x00802001)
       else
        if x < 22 then (if x < 21 then 0x00000080 else 0x00800000) else (if x < 23 then 0x00002001 else 0x00002080)
      else
       if x < 28 then
        if x < 26 then (if x < 25 then 0x00800081 else 0x00000001) else (if x < 27 then 0x00002080 else 0x00800080)
       else
        if x < 30 then (if x < 29 then 0x00002000 else 0x00802080) else (if x < 31 then 0x00802081 else 0x00000081)
    else
     if x < 48 then
      if x < 40 then
       if x < 36 then
        if x < 34 then (if x < 33 then 0x00800080 else 0x00800001) else (if x < 35 then 0x00802000 else 0x00802081)
       else
        if x < 38 then (if x < 37 then 0x00000081 else 0x00000000) else (if x < 39 then 0x00000000 else 0x00802000)
      else
       if x < 44 then
        if x < 42 then (if x < 41 then 0x00002080 else 0x00800080) else (if x < 43 then 0x00800081 else 0x00000001)
       else
        if x < 46 then (if x < 45 then 0x00802001 else 0x00002081) else (if x < 47 then 0x00002081 else 0x00000080)
     else
      if x < 56 then
       if x < 52 then
        if x < 50 then (if x < 49 then 0x00802081 else 0x00000081) else (if x < 51 then 0x00000001 else 0x00002000)
       else
        if x < 54 then (if x < 53 then 0x00800001 else 0x00002001) else (if x < 55 then 0x00802080 else 0x00800081)
      else
       if x < 60 then
        if x < 58 then (if x < 57 then 0x00002001 else 0x00002080) else (if x < 59 then 0x00800000 else 0x00802001)
       else
        if x < 62 then (if x < 61 then 0x00000080 else 0x00800000) else (if x < 63 then 0x00002000 else 0x00802080)
  }

  function Sp5(x: bv6): bv32 {
    if x < 32 then
     if x < 16 then
      if x < 8 then
       if x < 4 then
        if x < 2 then (if x < 1 then 0x00000100 else 0x02080100) else (if x < 3 then 0x02080000 else 0x42000100)
       else
        if x < 6 then (if x < 5 then 0x00080000 else 0x00000100) else (if x < 7 then 0x40000000 else 0x02080000)
      else
       if x < 12 then
        if x < 10 then (if x < 9 then 0x40080100 else 0x00080000) else (if x < 11 then 0x02000100 else 0x40080100)
       else
        if x < 14 then (if x < 13 then 0x42000100 else 0x42080000) else (if x < 15 then 0x00080100 else 0x40000000)
     else
      if x < 24 then
       if x < 20 then
        if x < 18 then (if x < 17 then 0x02000000 else 0x40080000) else (if x < 19 then 0x40080000 else 0x00000000)
       else
        if x < 22 then (if x < 21 then 0x40000100 else 0x42080100) else (if x < 23 then 0x42080100 else 0x02000100)
      else
       if x < 28 then
        if x < 26 then (if x < 25 then 0x42080000 else 0x40000100) else (if x < 27 then 0x00000000 else 0x42000000)
       else
        if x < 30 then (if x < 29 then 0x02080100 else 0x02000000) else (if x < 31 then 0x42000000 else 0x00080100)
    else
     if x < 48 then
      if x < 40 then
       if x < 36 then
        if x < 34 then (if x < 33 then 0x00080000 else 0x42000100) else (if x < 35 then 0x00000100 else 0x02000000)
       else
        if x < 38 then (if x < 37 then 0x40000000 else 0x02080000) else (if x < 39 then 0x42000100 else 0x40080100)
      else
       if x < 44 then
        if x < 42 then (if x < 41 then 0x02000100 else 0x40000000) else (if x < 43 then 0x42080000 else 0x02080100)
       else
        if x < 46 then (if x < 45 then 0x40080100 else 0x00000100) else (if x < 47 then 0x02000000 else 0x42080000)
     else
      if x < 56 then
       if x < 52 then
        if x < 50 then (if x < 49 then 0x42080100 else 0x00080100) else (if x < 51 then 0x42000000 else 0x42080100)
       else
        if x < 54 then (if x < 53 then 0x02080000 else 0x00000000) else (if x < 55 then 0x40080000 else 0x42000000)
      else
       if x < 60 then
        if x < 58 then (if x < 57 then 0x00080100 else 0x02000100) else (if x < 59 then 0x40000100 else 0x00080000)
       else
        if x < 62 then (if x < 61 then 0x00000000 else 0x40080000) else (if x < 63 then 0x02080100 else 0x40000100)
  }

  function Sp6(x: bv6): bv32 {
    if x < 32 then
     if x < 16 then
      if x < 8 then
       if x < 4 then
        if x < 2 then (if x < 1 then 0x20000010 else 0x20400000) else (if x < 3 then 0x00004000 else 0x20404010)
       else
        if x < 6 then (if x < 5 then 0x20400000 else 0x00000010) else (if x < 7 then 0x20404010 else 0x00400000)
      else
       if x < 12 then
        if x < 10 then (if x < 9 then 0x20004000 else 0x00404010) else (if x < 11 then 0x00400000 else 0x20000010)
       else
        if x < 14 then (if x < 13 then 0x00400010 else 0x20004000) else (if x < 15 then 0x20000000 else 0x00004010)
     else
      if x < 24 then
       if x < 20 then
        if x < 18 then (if x < 17 then 0x00000000 else 0x00400010) else (if x < 19 then 0x20004010 else 0x00004000)
       else
        if x < 22 then (if x < 21 then 0x00404000 else 0x20004010) else (if x < 23 then 0x00000010 else 0x20400010)
      else
       if x < 28 then
        if x < 26 then (if x < 25 then 0x20400010 else 0x00000000) else (if x < 27 then 0x00404010 else 0x20404000)
       else
        if x < 30 then (if x < 29 then 0x00004010 else 0x00404000) else (if x < 31 then 0x20404000 else 0x20000000)
    else
     if x < 48 then
      if x < 40 then
       if x < 36 then
        if x < 34 then (if x < 33 then 0x20004000 else 0x00000010) else (if x < 35 then 0x20400010 else 0x00404000)
       else
        if x < 38 then (if x < 37 then 0x20404010 else 0x00400000) else (if x < 39 then 0x00004010 else 0x20000010)
      else
       if x < 44 then
        if x < 42 then (if x < 41 then 0x00400000 else 0x20004000) else (if x < 43 then 0x20000000 else 0x00004010)
       else
        if x < 46 then (if x < 45 then 0x20000010 else 0x20404010) else (if x < 47 then 0x00404000 else 0x20400000)
     else
      if x < 56 then
       if x < 52 then
        if x < 50 then (if x < 49 then 0x00404010 else 0x20404000) else (if x < 51 then 0x00000000 else 0x20400010)
       else
        if x < 54 then (if x < 53 then 0x00000010 else 0x00004000) else (if x < 55 then 0x20400000 else 0x00404010)
      else
       if x < 60 then
        if x < 58 then (if x < 57 then 0x00004000 else 0x00400010) else (if x < 59 then 0x20004010 else 0x00000000)
       else
        if x < 62 then (if x < 61 then 0x20404000 else 0x20000000) else (if x < 63 then 0x00400010 else 0x20004010)
  }

  function Sp7(x: bv6): bv32 {
    if x < 32 then
     if x < 16 then
      if x < 8 then
       if x < 4 then
        if x < 2 then (if x < 1 then 0x00200000 else 0x04200002) else (if x < 3 then 0x04000802 else 0x00000000)
       else
        if x < 6 then (if x < 5 then 0x00000800 else 0x04000802) else (if x < 7 then 0x00200802 else 0x04200800)
      else
       if x < 12 then
        if x < 10 then (if x < 9 then 0x04200802 else 0x00200000) else (if x < 11 then 0x00000000 else 0x04000002)
       else
        if x < 14 then (if x < 13 then 0x00000002 else 0x04000000) else (if x < 15 then 0x04200002 else 0x00000802)
     else
      if x < 24 then
       if x < 20 then
        if x < 18 then (if x < 17 then 0x04000800 else 0x00200802) else (if x < 19 then 0x00200002 else 0x04000800)
       else
        if x < 22 then (if x < 21 then 0x04000002 else 0x04200000) else (if x < 23 then 0x04200800 else 0x00200002)
      else
       if x < 28 then
        if x < 26 then (if x < 25 then 0x04200000 else 0x00000800) else (if x < 27 then 0x00000802 else 0x04200802)
       else
        if x < 30 then (if x < 29 then 0x00200800 else 0x00000002) else (if x < 31 then 0x04000000 else 0x00200800)
    else
     if x < 48 then
      if x < 40 then
       if x < 36 then
        if x < 34 then (if x < 33 then 0x04000000 else 0x00200800) else (if x < 35 then 0x00200000 else 0x04000802)
       else
        if x < 38 then (if x < 37 then 0x04000802 else 0x04200002) else (if x < 39 then 0x04200002 else 0x00000002)
      else
       if x < 44 then
        if x < 42 then (if x < 41 then 0x00200002 else 0x04000000) else (if x < 43 then 0x04000800 else 0x00200000)
       else
        if x < 46 then (if x < 45 then 0x04200800 else 0x00000802) else (if x < 47 then 0x00200802 else 0x04200800)
     else
      if x < 56 then
       if x < 52 then
        if x < 50 then (if x < 49 then 0x00000802 else 0x04000002) else (if x < 51 then 0x04200802 else 0x04200000)
       else
        if x < 54 then (if x < 53 then 0x00200800 else 0x00000000) else (if x < 55 then 0x00000002 else 0x04200802)
      else
       if x < 60 then
        if x < 58 then (if x < 57 then 0x00000000 else 0x00200802) else (if x < 59 then 0x04200000 else 0x00000800)
       else
        if x < 62 then (if x < 61 then 0x04000002 else 0x04000800) else (if x < 63 then 0x00000800 else 0x00200002)
  }

  function Sp8(x: bv6): bv32 {
    if x < 32 then
     if x < 16 then
      if x < 8 then
       if x < 4 then
        if x < 2 then (if x < 1 then 0x10001040 else 0x00001000) else (if x < 3 then 0x00040000 else 0x10041040)
       else
        if x < 6 then (if x < 5 then 0x10000000 else 0x10001040) else (if x < 7 then 0x00000040 else 0x10000000)
      else
       if x < 12 then
        if x < 10 then (if x < 9 then 0x00040040 else 0x10040000) else (if x < 11 then 0x10041040 else 0x00041000)
       else
        if x < 14 then (if x < 13 then 0x10041000 else 0x00041040) else (if x < 15 then 0x00001000 else 0x00000040)
     else
      if x < 24 then
       if x < 20 then
        if x < 18 then (if x < 17 then 0x10040000 else 0x10000040) else (if x < 19 then 0x10001000 else 0x00001040)
       else
        if x < 22 then (if x < 21 then 0x00041000 else 0x00040040) else (if x < 23 then 0x10040040 else 0x10041000)
      else
       if x < 28 then
        if x < 26 then (if x < 25 then 0x00001040 else 0x00000000) else (if x < 27 then 0x00000000 else 0x10040040)
       else
        if x < 30 then (if x < 29 then 0x10000040 else 0x10001000) else (if x < 31 then 0x00041040 else 0x00040000)
    else
     if x < 48 then
      if x < 40 then
       if x < 36 then
        if x < 34 then (if x < 33 then 0x00041040 else 0x00040000) else (if x < 35 then 0x10041000 else 0x00001000)
       else
        if x < 38 then (if x < 37 then 0x00000040 else 0x10040040) else (if x < 39 then 0x00001000 else 0x00041040)
      else
       if x < 44 then
        if x < 42 then (if x < 41 then 0x10001000 else 0x00000040) else (if x < 43 then 0x10000040 else 0x10040000)
       else
        if x < 46 then (if x < 45 then 0x10040040 else 0x10000000) else (if x < 47 then 0x00040000 else 0x10001040)
     else
      if x < 56 then
       if x < 52 then
        if x < 50 then (if x < 49 then 0x00000000 else 0x10041040) else (if x < 51 then 0x00040040 else 0x10000040)
       else
        if x < 54 then (if x < 53 then 0x10040000 else 0x10001000) else (if x < 55 then 0x10001040 else 0x00000000)
      else
       if x < 60 then
        if x < 58 then (if x < 57 then 0x10041040 else 0x00041000) else (if x < 59 then 0x00041000 else 0x00001040)
       else
        if x < 62 then (if x < 61 then 0x00001040 else 0x00040040) else (if x < 63 then 0x10000000 else 0x10041000)
  }
}
