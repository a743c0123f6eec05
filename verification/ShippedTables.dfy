/** The quantiser tables the codec ships, and what the channel results ask of them. */
module ShippedTables {
  import opened LsfVector
  import opened MaPrediction
  import opened LsfCodebook
  import opened AnyHistory

  function L1From0(i: nat): seq<int> {
    if i == 0 then [1486, 2168, 3751, 9074, 12134, 13944, 17983, 19173, 21190, 21820]
    else if i == 1 then [1730, 2640, 3450, 4870, 6126, 7876, 15644, 17817, 20294, 21902]
    else if i == 2 then [1568, 2256, 3088, 4874, 11063, 13393, 18307, 19293, 21109, 21741]
    else if i == 3 then [1733, 2512, 3357, 4708, 6977, 10296, 17024, 17956, 19145, 20350]
    else if i == 4 then [1744, 2436, 3308, 8731, 10432, 12007, 15614, 16639, 21359, 21913]
    else if i == 5 then [1786, 2369, 3372, 4521, 6795, 12963, 17674, 18988, 20855, 21640]
    else if i == 6 then [1631, 2433, 3361, 6328, 10709, 12013, 13277, 13904, 19441, 21088]
    else [1489, 2364, 3291, 6250, 9227, 10403, 13843, 15278, 17721, 21451]
  }

  function L1From8(i: nat): seq<int> {
    if i == 0 then [1869, 2533, 3475, 4365, 9152, 14513, 15908, 17022, 20611, 21411]
    else if i == 1 then [2070, 3025, 4333, 5854, 7805, 9231, 10597, 16047, 20109, 21834]
    else if i == 2 then [1910, 2673, 3419, 4261, 11168, 15111, 16577, 17591, 19310, 20265]
    else if i == 3 then [1141, 1815, 2624, 4623, 6495, 9588, 13968, 16428, 19351, 21286]
    else if i == 4 then [2192, 3171, 4707, 5808, 10904, 12500, 14162, 15664, 21124, 21789]
    else if i == 5 then [1286, 1907, 2548, 3453, 9574, 11964, 15978, 17344, 19691, 22495]
    else if i == 6 then [1921, 2720, 4604, 6684, 11503, 12992, 14350, 15262, 16997, 20791]
    else [2052, 2759, 3897, 5246, 6638, 10267, 15834, 16814, 18149, 21675]
  }

  function L1From16(i: nat): seq<int> {
    if i == 0 then [1798, 2497, 5617, 11449, 13189, 14711, 17050, 18195, 20307, 21182]
    else if i == 1 then [1009, 1647, 2889, 5709, 9541, 12354, 15231, 18494, 20966, 22033]
    else if i == 2 then [3016, 3794, 5406, 7469, 12488, 13984, 15328, 16334, 19952, 20791]
    else if i == 3 then [2203, 3040, 3796, 5442, 11987, 13512, 14931, 16370, 17856, 18803]
    else if i == 4 then [2912, 4292, 7988, 9572, 11562, 13244, 14556, 16529, 20004, 21073]
    else if i == 5 then [2861, 3607, 5923, 7034, 9234, 12054, 13729, 18056, 20262, 20974]
    else if i == 6 then [3069, 4311, 5967, 7367, 11482, 12699, 14309, 16233, 18333, 19172]
    else [2434, 3661, 4866, 5798, 10383, 11722, 13049, 15668, 18862, 19831]
  }

  function L1From24(i: nat): seq<int> {
    if i == 0 then [2020, 2605, 3860, 9241, 13275, 14644, 16010, 17099, 19268, 20251]
    else if i == 1 then [1877, 2809, 3590, 4707, 11056, 12441, 15622, 17168, 18761, 19907]
    else if i == 2 then [2107, 2873, 3673, 5799, 13579, 14687, 15938, 17077, 18890, 19831]
    else if i == 3 then [1612, 2284, 2944, 3572, 8219, 13959, 15924, 17239, 18592, 20117]
    else if i == 4 then [2420, 3156, 6542, 10215, 12061, 13534, 15305, 16452, 18717, 19880]
    else if i == 5 then [1667, 2612, 3534, 5237, 10513, 11696, 12940, 16798, 18058, 19378]
    else if i == 6 then [2388, 3017, 4839, 9333, 11413, 12730, 15024, 16248, 17449, 18677]
    else [1875, 2786, 4231, 6320, 8694, 10149, 11785, 17013, 18608, 19960]
  }

  function L1From32(i: nat): seq<int> {
    if i == 0 then [679, 1411, 4654, 8006, 11446, 13249, 15763, 18127, 20361, 21567]
    else if i == 1 then [1838, 2596, 3578, 4608, 5650, 11274, 14355, 15886, 20579, 21754]
    else if i == 2 then [1303, 1955, 2395, 3322, 12023, 13764, 15883, 18077, 20180, 21232]
    else if i == 3 then [1438, 2102, 2663, 3462, 8328, 10362, 13763, 17248, 19732, 22344]
    else if i == 4 then [860, 1904, 6098, 7775, 9815, 12007, 14821, 16709, 19787, 21132]
    else if i == 5 then [1673, 2723, 3704, 6125, 7668, 9447, 13683, 14443, 20538, 21731]
    else if i == 6 then [1246, 1849, 2902, 4508, 7221, 12710, 14835, 16314, 19335, 22720]
    else [1525, 2260, 3862, 5659, 7342, 11748, 13370, 14442, 18044, 21334]
  }

  function L1From40(i: nat): seq<int> {
    if i == 0 then [1196, 1846, 3104, 7063, 10972, 12905, 14814, 17037, 19922, 22636]
    else if i == 1 then [2147, 3106, 4475, 6511, 8227, 9765, 10984, 12161, 18971, 21300]
    else if i == 2 then [1585, 2405, 2994, 4036, 11481, 13177, 14519, 15431, 19967, 21275]
    else if i == 3 then [1778, 2688, 3614, 4680, 9465, 11064, 12473, 16320, 19742, 20800]
    else if i == 4 then [1862, 2586, 3492, 6719, 11708, 13012, 14364, 16128, 19610, 20425]
    else if i == 5 then [1395, 2156, 2669, 3386, 10607, 12125, 13614, 16705, 18976, 21367]
    else if i == 6 then [1444, 2117, 3286, 6233, 9423, 12981, 14998, 15853, 17188, 21857]
    else [2004, 2895, 3783, 4897, 6168, 7297, 12609, 16445, 19297, 21465]
  }

  function L1From48(i: nat): seq<int> {
    if i == 0 then [1495, 2863, 6360, 8100, 11399, 14271, 15902, 17711, 20479, 22061]
    else if i == 1 then [2484, 3114, 5718, 7097, 8400, 12616, 14073, 14847, 20535, 21396]
    else if i == 2 then [2424, 3277, 5296, 6284, 11290, 12903, 16022, 17508, 19333, 20283]
    else if i == 3 then [2565, 3778, 5360, 6989, 8782, 10428, 14390, 15742, 17770, 21734]
    else if i == 4 then [2727, 3384, 6613, 9254, 10542, 12236, 14651, 15687, 20074, 21102]
    else if i == 5 then [1916, 2953, 6274, 8088, 9710, 10925, 12392, 16434, 20010, 21183]
    else if i == 6 then [3384, 4366, 5349, 7667, 11180, 12605, 13921, 15324, 19901, 20754]
    else [3075, 4283, 5951, 7619, 9604, 11010, 12384, 14006, 20658, 21497]
  }

  function L1From56(i: nat): seq<int> {
    if i == 0 then [1751, 2455, 5147, 9966, 11621, 13176, 14739, 16470, 20788, 21756]
    else if i == 1 then [1442, 2188, 3330, 6813, 8929, 12135, 14476, 15306, 19635, 20544]
    else if i == 2 then [2294, 2895, 4070, 8035, 12233, 13416, 14762, 17367, 18952, 19688]
    else if i == 3 then [1937, 2659, 4602, 6697, 9071, 12863, 14197, 15230, 16047, 18877]
    else if i == 4 then [2071, 2663, 4216, 9445, 10887, 12292, 13949, 14909, 19236, 20341]
    else if i == 5 then [1740, 2491, 3488, 8138, 9656, 11153, 13206, 14688, 20896, 21907]
    else if i == 6 then [2199, 2881, 4675, 8527, 10051, 11408, 14435, 15463, 17190, 20597]
    else [1943, 2988, 4177, 6039, 7478, 8536, 14181, 15551, 17622, 21579]
  }

  function L1From64(i: nat): seq<int> {
    if i == 0 then [1825, 3175, 7062, 9818, 12824, 15450, 18330, 19856, 21830, 22412]
    else if i == 1 then [2464, 3046, 4822, 5977, 7696, 15398, 16730, 17646, 20588, 21320]
    else if i == 2 then [2550, 3393, 5305, 6920, 10235, 14083, 18143, 19195, 20681, 21336]
    else if i == 3 then [3003, 3799, 5321, 6437, 7919, 11643, 15810, 16846, 18119, 18980]
    else if i == 4 then [3455, 4157, 6838, 8199, 9877, 12314, 15905, 16826, 19949, 20892]
    else if i == 5 then [3052, 3769, 4891, 5810, 6977, 10126, 14788, 15990, 19773, 20904]
    else if i == 6 then [3671, 4356, 5827, 6997, 8460, 12084, 14154, 14939, 19247, 20423]
    else [2716, 3684, 5246, 6686, 8463, 10001, 12394, 14131, 16150, 19776]
  }

  function L1From72(i: nat): seq<int> {
    if i == 0 then [1945, 2638, 4130, 7995, 14338, 15576, 17057, 18206, 20225, 20997]
    else if i == 1 then [2304, 2928, 4122, 4824, 5640, 13139, 15825, 16938, 20108, 21054]
    else if i == 2 then [1800, 2516, 3350, 5219, 13406, 15948, 17618, 18540, 20531, 21252]
    else if i == 3 then [1436, 2224, 2753, 4546, 9657, 11245, 15177, 16317, 17489, 19135]
    else if i == 4 then [2319, 2899, 4980, 6936, 8404, 13489, 15554, 16281, 20270, 20911]
    else if i == 5 then [2187, 2919, 4610, 5875, 7390, 12556, 14033, 16794, 20998, 21769]
    else if i == 6 then [2235, 2923, 5121, 6259, 8099, 13589, 15340, 16340, 17927, 20159]
    else [1765, 2638, 3751, 5730, 7883, 10108, 13633, 15419, 16808, 18574]
  }

  function L1From80(i: nat): seq<int> {
    if i == 0 then [3460, 5741, 9596, 11742, 14413, 16080, 18173, 19090, 20845, 21601]
    else if i == 1 then [3735, 4426, 6199, 7363, 9250, 14489, 16035, 17026, 19873, 20876]
    else if i == 2 then [3521, 4778, 6887, 8680, 12717, 14322, 15950, 18050, 20166, 21145]
    else if i == 3 then [2141, 2968, 6865, 8051, 10010, 13159, 14813, 15861, 17528, 18655]
    else if i == 4 then [4148, 6128, 9028, 10871, 12686, 14005, 15976, 17208, 19587, 20595]
    else if i == 5 then [4403, 5367, 6634, 8371, 10163, 11599, 14963, 16331, 17982, 18768]
    else if i == 6 then [4091, 5386, 6852, 8770, 11563, 13290, 15728, 16930, 19056, 20102]
    else [2746, 3625, 5299, 7504, 10262, 11432, 13172, 15490, 16875, 17514]
  }

  function L1From88(i: nat): seq<int> {
    if i == 0 then [2248, 3556, 8539, 10590, 12665, 14696, 16515, 17824, 20268, 21247]
    else if i == 1 then [1279, 1960, 3920, 7793, 10153, 14753, 16646, 18139, 20679, 21466]
    else if i == 2 then [2440, 3475, 6737, 8654, 12190, 14588, 17119, 17925, 19110, 19979]
    else if i == 3 then [1879, 2514, 4497, 7572, 10017, 14948, 16141, 16897, 18397, 19376]
    else if i == 4 then [2804, 3688, 7490, 10086, 11218, 12711, 16307, 17470, 20077, 21126]
    else if i == 5 then [2023, 2682, 3873, 8268, 10255, 11645, 15187, 17102, 18965, 19788]
    else if i == 6 then [2823, 3605, 5815, 8595, 10085, 11469, 16568, 17462, 18754, 19876]
    else [2851, 3681, 5280, 7648, 9173, 10338, 14961, 16148, 17559, 18474]
  }

  function L1From96(i: nat): seq<int> {
    if i == 0 then [1348, 2645, 5826, 8785, 10620, 12831, 16255, 18319, 21133, 22586]
    else if i == 1 then [2141, 3036, 4293, 6082, 7593, 10629, 17158, 18033, 21466, 22084]
    else if i == 2 then [1608, 2375, 3384, 6878, 9970, 11227, 16928, 17650, 20185, 21120]
    else if i == 3 then [2774, 3616, 5014, 6557, 7788, 8959, 17068, 18302, 19537, 20542]
    else if i == 4 then [1934, 4813, 6204, 7212, 8979, 11665, 15989, 17811, 20426, 21703]
    else if i == 5 then [2288, 3507, 5037, 6841, 8278, 9638, 15066, 16481, 21653, 22214]
    else if i == 6 then [2951, 3771, 4878, 7578, 9016, 10298, 14490, 15242, 20223, 20990]
    else [3256, 4791, 6601, 7521, 8644, 9707, 13398, 16078, 19102, 20249]
  }

  function L1From104(i: nat): seq<int> {
    if i == 0 then [1827, 2614, 3486, 6039, 12149, 13823, 16191, 17282, 21423, 22041]
    else if i == 1 then [1000, 1704, 3002, 6335, 8471, 10500, 14878, 16979, 20026, 22427]
    else if i == 2 then [1646, 2286, 3109, 7245, 11493, 12791, 16824, 17667, 18981, 20222]
    else if i == 3 then [1708, 2501, 3315, 6737, 8729, 9924, 16089, 17097, 18374, 19917]
    else if i == 4 then [2623, 3510, 4478, 5645, 9862, 11115, 15219, 18067, 19583, 20382]
    else if i == 5 then [2518, 3434, 4728, 6388, 8082, 9285, 13162, 18383, 19819, 20552]
    else if i == 6 then [1726, 2383, 4090, 6303, 7805, 12845, 14612, 17608, 19269, 20181]
    else [2860, 3735, 4838, 6044, 7254, 8402, 14031, 16381, 18037, 19410]
  }

  function L1From112(i: nat): seq<int> {
    if i == 0 then [4247, 5993, 7952, 9792, 12342, 14653, 17527, 18774, 20831, 21699]
    else if i == 1 then [3502, 4051, 5680, 6805, 8146, 11945, 16649, 17444, 20390, 21564]
    else if i == 2 then [3151, 4893, 5899, 7198, 11418, 13073, 15124, 17673, 20520, 21861]
    else if i == 3 then [3960, 4848, 5926, 7259, 8811, 10529, 15661, 16560, 18196, 20183]
    else if i == 4 then [4499, 6604, 8036, 9251, 10804, 12627, 15880, 17512, 20020, 21046]
    else if i == 5 then [4251, 5541, 6654, 8318, 9900, 11686, 15100, 17093, 20572, 21687]
    else if i == 6 then [3769, 5327, 7865, 9360, 10684, 11818, 13660, 15366, 18733, 19882]
    else [3083, 3969, 6248, 8121, 9798, 10994, 12393, 13686, 17888, 19105]
  }

  function L1From120(i: nat): seq<int> {
    if i == 0 then [2731, 4670, 7063, 9201, 11346, 13735, 16875, 18797, 20787, 22360]
    else if i == 1 then [1187, 2227, 4737, 7214, 9622, 12633, 15404, 17968, 20262, 23533]
    else if i == 2 then [1911, 2477, 3915, 10098, 11616, 12955, 16223, 17138, 19270, 20729]
    else if i == 3 then [1764, 2519, 3887, 6944, 9150, 12590, 16258, 16984, 17924, 18435]
    else if i == 4 then [1400, 3674, 7131, 8718, 10688, 12508, 15708, 17711, 19720, 21068]
    else if i == 5 then [2322, 3073, 4287, 8108, 9407, 10628, 15862, 16693, 19714, 21474]
    else if i == 6 then [2630, 3339, 4758, 8360, 10274, 11333, 12880, 17374, 19221, 19936]
    else [1721, 2577, 5553, 7195, 8651, 10686, 15069, 16953, 18703, 19929]
  }

  function L1(i: nat): seq<int> {
    if i < 8 then L1From0(i)
    else if i < 16 then L1From8(i - 8)
    else if i < 24 then L1From16(i - 16)
    else if i < 32 then L1From24(i - 24)
    else if i < 40 then L1From32(i - 32)
    else if i < 48 then L1From40(i - 40)
    else if i < 56 then L1From48(i - 48)
    else if i < 64 then L1From56(i - 56)
    else if i < 72 then L1From64(i - 64)
    else if i < 80 then L1From72(i - 72)
    else if i < 88 then L1From80(i - 80)
    else if i < 96 then L1From88(i - 88)
    else if i < 104 then L1From96(i - 96)
    else if i < 112 then L1From104(i - 104)
    else if i < 120 then L1From112(i - 112)
    else L1From120(i - 120)
  }

  function L2L3From0(i: nat): seq<int> {
    if i == 0 then [-435, -815, -742, 1033, -518, 582, -1201, 829, 86, 385]
    else if i == 1 then [-833, -891, 463, -8, -1251, 1450, 72, -231, 864, 661]
    else if i == 2 then [-1021, 231, -306, 321, -220, -163, -526, -754, -1633, 267]
    else if i == 3 then [57, -198, -339, -33, -1468, 573, 796, -169, -631, 816]
    else if i == 4 then [171, -350, 294, 1660, 453, 519, 291, 159, -640, -1296]
    else if i == 5 then [-701, -842, -58, 950, 892, 1549, 715, 527, -714, -193]
    else if i == 6 then [584, 31, -289, 356, -333, -457, 612, -283, -1381, -741]
    else [-109, -808, 231, 77, -87, -344, 1341, 1087, -654, -569]
  }

  function L2L3From8(i: nat): seq<int> {
    if i == 0 then [-859, 1236, 550, 854, 714, -543, -1752, -195, -98, -276]
    else if i == 1 then [-877, -954, -1248, -299, 212, -235, -728, 949, 1517, 895]
    else if i == 2 then [-77, 344, -620, 763, 413, 502, -362, -960, -483, 1386]
    else if i == 3 then [-314, -307, -256, -1260, -429, 450, -466, -108, 1010, 2223]
    else if i == 4 then [711, 693, 521, 650, 1305, -28, -378, 744, -1005, 240]
    else if i == 5 then [-112, -271, -500, 946, 1733, 271, -15, 909, -259, 1688]
    else if i == 6 then [575, -10, -468, -199, 1101, -1011, 581, -53, -747, 878]
    else [145, -285, -1280, -398, 36, -498, -1377, 18, -444, 1483]
  }

  function L2L3From16(i: nat): seq<int> {
    if i == 0 then [-1133, -835, 1350, 1284, -95, 1015, -222, 443, 372, -354]
    else if i == 1 then [-1459, -1237, 416, -213, 466, 669, 659, 1640, 932, 534]
    else if i == 2 then [-15, 66, 468, 1019, -748, 1385, -182, -907, -721, -262]
    else if i == 3 then [-338, 148, 1445, 75, -760, 569, 1247, 337, 416, -121]
    else if i == 4 then [389, 239, 1568, 981, 113, 369, -1003, -507, -587, -904]
    else if i == 5 then [-312, -98, 949, 31, 1104, 72, -141, 1465, 63, -785]
    else if i == 6 then [1127, 584, 835, 277, -1159, 208, 301, -882, 117, -404]
    else [539, -114, 856, -493, 223, -912, 623, -76, 276, -440]
  }

  function L2L3From24(i: nat): seq<int> {
    if i == 0 then [2197, 2337, 1268, 670, 304, -267, -525, 140, 882, -139]
    else if i == 1 then [-1596, 550, 801, -456, -56, -697, 865, 1060, 413, 446]
    else if i == 2 then [1154, 593, -77, 1237, -31, 581, -1037, -895, 669, 297]
    else if i == 3 then [397, 558, 203, -797, -919, 3, 692, -292, 1050, 782]
    else if i == 4 then [334, 1475, 632, -80, 48, -1061, -484, 362, -597, -852]
    else if i == 5 then [-545, -330, -429, -680, 1133, -1182, -744, 1340, 262, 63]
    else if i == 6 then [1320, 827, -398, -576, 341, -774, -483, -1247, -70, 98]
    else [-163, 674, -11, -886, 531, -1125, -265, -242, 724, 934]
  }

  function L2L3(i: nat): seq<int> {
    if i < 8 then L2L3From0(i)
    else if i < 16 then L2L3From8(i - 8)
    else if i < 24 then L2L3From16(i - 16)
    else L2L3From24(i - 24)
  }

  function L1Subset(): seq<nat> {
    [96, 52, 20, 54, 86, 114, 82, 68, 36, 121, 48, 92, 18, 120, 94, 124,
     50, 125, 4, 100, 28, 76, 12, 117, 81, 22, 90, 116, 127, 21, 108, 66]
  }

  function L2Subset(): seq<nat> {
    [31, 21, 9, 3, 10, 2, 19, 26, 4, 3, 11, 29, 15, 27, 21, 12]
  }

  function L3Subset(): seq<nat> {
    [16, 1, 0, 0, 8, 25, 22, 20, 19, 23, 20, 31, 4, 31, 20, 31]
  }

  function SpeechPast0(i: nat): seq<int> {
    if i == 0 then [8421, 7018, 5472, 4056]
    else if i == 1 then [9109, 7189, 4990, 3031]
    else if i == 2 then [9175, 7638, 5134, 2614]
    else if i == 3 then [8965, 7307, 5177, 3024]
    else if i == 4 then [9034, 7444, 5246, 2916]
    else if i == 5 then [9057, 7379, 5141, 2713]
    else if i == 6 then [8765, 7038, 5206, 3309]
    else if i == 7 then [8775, 6956, 5095, 3237]
    else if i == 8 then [9106, 6930, 4830, 2857]
    else [8673, 6868, 5147, 3473]
  }

  function SpeechCurrent0(): seq<int> {
    [7798, 8447, 8205, 8293, 8126, 8477, 8447, 8703, 9043, 8604]
  }

  function Speech0(): Predictor {
    Predictor(seq(10, i requires 0 <= i < 10 => SpeechPast0(i)), SpeechCurrent0())
  }

  function SpeechPast1(i: nat): seq<int> {
    if i == 0 then [7733, 4210, 3214, 3024]
    else if i == 1 then [7880, 3031, 1930, 1592]
    else if i == 2 then [8188, 2552, 1313, 940]
    else if i == 3 then [8175, 3473, 2143, 1631]
    else if i == 4 then [8247, 3876, 2493, 1723]
    else if i == 5 then [8490, 3853, 2385, 1579]
    else if i == 6 then [8637, 4184, 2755, 2034]
    else if i == 7 then [8601, 4154, 2706, 2084]
    else if i == 8 then [8359, 3909, 2542, 1913]
    else [7569, 3968, 2919, 2601]
  }

  function SpeechCurrent1(): seq<int> {
    [14585, 18333, 19772, 17344, 16426, 16459, 15155, 15220, 16043, 15708]
  }

  function Speech1(): Predictor {
    Predictor(seq(10, i requires 0 <= i < 10 => SpeechPast1(i)), SpeechCurrent1())
  }

  function NoisePast1(i: nat): seq<int> {
    if i == 0 then [8145, 5894, 4568, 3643]
    else if i == 1 then [8617, 5525, 3765, 2455]
    else if i == 2 then [8779, 5603, 3605, 1944]
    else if i == 3 then [8648, 5773, 3963, 2466]
    else if i == 4 then [8718, 6016, 4144, 2438]
    else if i == 5 then [8829, 5968, 4038, 2259]
    else if i == 6 then [8713, 5896, 4225, 2798]
    else if i == 7 then [8705, 5835, 4139, 2775]
    else if i == 8 then [8806, 5721, 3914, 2479]
    else [8231, 5707, 4255, 3124]
  }

  function NoiseCurrent1(): seq<int> {
    [10514, 12402, 12833, 11914, 11447, 11670, 11132, 11311, 11844, 11447]
  }

  function Noise1(): Predictor {
    Predictor(seq(10, i requires 0 <= i < 10 => NoisePast1(i)), NoiseCurrent1())
  }

  function InverseSum0(): seq<int> { [17210, 15888, 16357, 16183, 16516, 15833, 15888, 15421, 14840, 15597] }

  function InverseSum1(): seq<int> { [9202, 7320, 6788, 7738, 8170, 8154, 8856, 8818, 8366, 8544] }

  predicate IsFirstStage(row: seq<int>) {
    IsRow(row) && forall k :: 0 <= k < NB_LSP_COEFF ==> FIRST_MIN <= row[k] <= if k < HALF then LOW_FIRST_MAX else FIRST_MAX
  }

  lemma L1From0Range(i: nat)
    requires i < 8
    ensures IsFirstStage(L1From0(i))
  {}

  lemma L1From8Range(i: nat)
    requires i < 8
    ensures IsFirstStage(L1From8(i))
  {}

  lemma L1From16Range(i: nat)
    requires i < 8
    ensures IsFirstStage(L1From16(i))
  {}

  lemma L1From24Range(i: nat)
    requires i < 8
    ensures IsFirstStage(L1From24(i))
  {}

  lemma L1From32Range(i: nat)
    requires i < 8
    ensures IsFirstStage(L1From32(i))
  {}

  lemma L1From40Range(i: nat)
    requires i < 8
    ensures IsFirstStage(L1From40(i))
  {}

  lemma L1From48Range(i: nat)
    requires i < 8
    ensures IsFirstStage(L1From48(i))
  {}

  lemma L1From56Range(i: nat)
    requires i < 8
    ensures IsFirstStage(L1From56(i))
  {}

  lemma L1From64Range(i: nat)
    requires i < 8
    ensures IsFirstStage(L1From64(i))
  {}

  lemma L1From72Range(i: nat)
    requires i < 8
    ensures IsFirstStage(L1From72(i))
  {}

  lemma L1From80Range(i: nat)
    requires i < 8
    ensures IsFirstStage(L1From80(i))
  {}

  lemma L1From88Range(i: nat)
    requires i < 8
    ensures IsFirstStage(L1From88(i))
  {}

  lemma L1From96Range(i: nat)
    requires i < 8
    ensures IsFirstStage(L1From96(i))
  {}

  lemma L1From104Range(i: nat)
    requires i < 8
    ensures IsFirstStage(L1From104(i))
  {}

  lemma L1From112Range(i: nat)
    requires i < 8
    ensures IsFirstStage(L1From112(i))
  {}

  lemma L1From120Range(i: nat)
    requires i < 8
    ensures IsFirstStage(L1From120(i))
  {}

  lemma L1RangeLow(i: nat)
    requires i < 64
    ensures IsFirstStage(L1(i))
  {
    if i < 8 { L1From0Range(i);
    } else if i < 16 { L1From8Range(i - 8);
    } else if i < 24 { L1From16Range(i - 16);
    } else if i < 32 { L1From24Range(i - 24);
    } else if i < 40 { L1From32Range(i - 32);
    } else if i < 48 { L1From40Range(i - 40);
    } else if i < 56 { L1From48Range(i - 48);
    } else { L1From56Range(i - 56); }
  }

  lemma L1RangeHigh(i: nat)
    requires 64 <= i < 128
    ensures IsFirstStage(L1(i))
  {
    if i < 72 { L1From64Range(i - 64);
    } else if i < 80 { L1From72Range(i - 72);
    } else if i < 88 { L1From80Range(i - 80);
    } else if i < 96 { L1From88Range(i - 88);
    } else if i < 104 { L1From96Range(i - 96);
    } else if i < 112 { L1From104Range(i - 104);
    } else if i < 120 { L1From112Range(i - 112);
    } else { L1From120Range(i - 120); }
  }

  lemma L1Range(i: nat)
    requires i < 128
    ensures IsFirstStage(L1(i))
  {
    if i < 64 { L1RangeLow(i); } else { L1RangeHigh(i); }
  }

  lemma L2L3From0Range(i: nat)
    requires i < 8
    ensures IsRow(L2L3From0(i)) && Within(L2L3From0(i), SECOND_MIN, SECOND_MAX)
  {}

  lemma L2L3From8Range(i: nat)
    requires i < 8
    ensures IsRow(L2L3From8(i)) && Within(L2L3From8(i), SECOND_MIN, SECOND_MAX)
  {}

  lemma L2L3From16Range(i: nat)
    requires i < 8
    ensures IsRow(L2L3From16(i)) && Within(L2L3From16(i), SECOND_MIN, SECOND_MAX)
  {}

  lemma L2L3From24Range(i: nat)
    requires i < 8
    ensures IsRow(L2L3From24(i)) && Within(L2L3From24(i), SECOND_MIN, SECOND_MAX)
  {}

  lemma L2L3Range(i: nat)
    requires i < 32
    ensures IsRow(L2L3(i)) && Within(L2L3(i), SECOND_MIN, SECOND_MAX)
  {
    if i < 8 { L2L3From0Range(i);
    } else if i < 16 { L2L3From8Range(i - 8);
    } else if i < 24 { L2L3From16Range(i - 16);
    } else { L2L3From24Range(i - 24); }
  }

  // For L0 = 0 noise frames use the predictor of speech frames.
  function Shipped(): Tables {
    Tables(seq(128, i requires 0 <= i < 128 => L1(i)), seq(32, i requires 0 <= i < 32 => L2L3(i)),
           L1Subset(), L2Subset(), L3Subset(),
           [Speech0(), Speech1()], [Speech0(), Noise1()], [InverseSum0(), InverseSum1()])
  }

  lemma SubsetsInRange()
    ensures |L1Subset()| == 32 && |L2Subset()| == |L3Subset()| == 16
    ensures forall i :: 0 <= i < 32 ==> L1Subset()[i] < 128
    ensures forall i :: 0 <= i < 16 ==> L2Subset()[i] < 32 && L3Subset()[i] < 32
  {}

  lemma SpeechColumn0(i: nat)
    requires i < 10
    ensures |SpeechCurrent0()| == 10 && IsConvexColumn(SpeechPast0(i), SpeechCurrent0()[i]) && SpeechCurrent0()[i] >= LEAST_CURRENT
  {}

  lemma SpeechColumn1(i: nat)
    requires i < 10
    ensures |SpeechCurrent1()| == 10 && IsConvexColumn(SpeechPast1(i), SpeechCurrent1()[i]) && SpeechCurrent1()[i] >= LEAST_CURRENT
  {}

  lemma NoiseColumn1(i: nat)
    requires i < 10
    ensures |NoiseCurrent1()| == 10 && IsConvexColumn(NoisePast1(i), NoiseCurrent1()[i]) && NoiseCurrent1()[i] >= LEAST_CURRENT
  {}

  lemma Convex()
    ensures IsDamped(Speech0()) && IsDamped(Speech1()) && IsDamped(Noise1())
    ensures IsRow(InverseSum0()) && IsRow(InverseSum1())
  {
    forall i | 0 <= i < 10 ensures IsConvexColumn(Speech0().past[i], Speech0().current[i]) && Speech0().current[i] >= LEAST_CURRENT { SpeechColumn0(i); }
    forall i | 0 <= i < 10 ensures IsConvexColumn(Speech1().past[i], Speech1().current[i]) && Speech1().current[i] >= LEAST_CURRENT { SpeechColumn1(i); }
    forall i | 0 <= i < 10 ensures IsConvexColumn(Noise1().past[i], Noise1().current[i]) && Noise1().current[i] >= LEAST_CURRENT { NoiseColumn1(i); }
  }

  // The two halves of the second-stage rows a descriptor names, summed.
  function HalfSums(l2: nat): int
    requires l2 < 16
  {
    var low, high := L2L3(L2Subset()[l2]), L2L3(L3Subset()[l2]);
    if IsRow(low) && IsRow(high)
    then low[0] + low[1] + low[2] + low[3] + low[4] + high[5] + high[6] + high[7] + high[8] + high[9]
    else 0
  }

  lemma Sums12()
    ensures HalfSums(12) == -2749 && HalfSums(0) == 1399
  {}

  lemma Sums13()
    ensures HalfSums(13) == -532 && HalfSums(1) == 4490
  {}

  lemma Sums14()
    ensures HalfSums(14) == -958 && HalfSums(2) == -2485
  {}

  lemma Sums15()
    ensures HalfSums(15) == 3906 && HalfSums(3) == -1300
  {}

  lemma AliasedSumsDiffer(l2: nat)
    requires 12 <= l2 < 16
    ensures HalfSums(l2) != HalfSums(l2 - 12)
  {
    Sums12();
    Sums13();
    Sums14();
    Sums15();
  }

  lemma SumOfFive(q: seq<int>)
    requires |q| == 5
    ensures Sum(q) == q[0] + q[1] + q[2] + q[3] + q[4]
  {
    assert Sum(q[..1]) == q[0] by { assert q[..1][..0] == []; }
    assert q[..4][..3] == q[..3] && q[..3][..2] == q[..2] && q[..2][..1] == q[..1];
    assert Sum(q[..3]) == q[0] + q[1] + q[2];
  }

  lemma SecondStageSumIs(l2: nat)
    requires l2 < 16 && Shaped(Shipped())
    ensures SecondStageSum(Shipped(), l2) == HalfSums(l2)
  {
    SubsetsInRange();
    L2L3Range(L2Subset()[l2]);
    L2L3Range(L3Subset()[l2]);
    SumOfFive(L2L3(L2Subset()[l2])[..5]);
    SumOfFive(L2L3(L3Subset()[l2])[5..]);
  }

  lemma ShippedInRange()
    ensures Ranged(Shipped())
  {
    SubsetsInRange();
    Convex();
    forall i | 0 <= i < 128 ensures IsRow(Shipped().first[i]) && Within(Shipped().first[i], FIRST_MIN, FIRST_MAX) { L1Range(i); }
    forall i | 0 <= i < 32 ensures IsRow(Shipped().second[i]) && Within(Shipped().second[i], SECOND_MIN, SECOND_MAX) { L2L3Range(i); }
  }

  /** No new codeword has a small weight, and the first half of a first-stage row is low. */
  lemma ShippedDamped()
    ensures Damped(Shipped())
  {
    ShippedInRange();
    Convex();
    forall i, k | 0 <= i < 128 && 0 <= k < HALF ensures Shipped().first[i][k] <= LOW_FIRST_MAX { L1Range(i); }
  }

  /** The shipped tables have the shape and the ranges that the results on any tables ask for,
      and the rows of the aliased descriptors do have different sums. */
  lemma ShippedQualify()
    ensures Ranged(Shipped()) && AliasesDiffer(Shipped())
  {
    ShippedInRange();
    forall l2 | 12 <= l2 < 16 ensures SecondStageSum(Shipped(), l2) != SecondStageSum(Shipped(), l2 - 12) {
      SecondStageSumIs(l2);
      SecondStageSumIs(l2 - 12);
      AliasedSumsDiffer(l2);
    }
  }
}
